/** The `User` record the profile endpoint returns. */
module Users {
  import opened Wrappers

  datatype UserType = Student | Regular | MessOwner

  /**
   * The onboarding status. `Unknown` stands for any other value the back end may send,
   * `Unknown("")` for a missing one; the route guard and the login page both see it.
   */
  datatype Status = Unverified | RegistrationComplete | ProfileComplete | Unknown(raw: string)

  datatype StudentProfile = StudentProfile(institute: string, studentId: string, hostel: string)

  datatype RegularProfile = RegularProfile(address: string, landmark: string)

  datatype MessOwnerProfile = MessOwnerProfile(
    messName: string, businessAddress: string, businessPhone: string,
    businessEmail: string, gstNumber: string)

  datatype User = User(
    id: int,
    username: string,
    email: string,
    phone: string,
    userType: UserType,
    isTiffinUser: bool,
    isMessUser: bool,
    status: Status,
    preferredDeliveryTime: Option<string>,
    studentProfile: Option<StudentProfile>,
    regularProfile: Option<RegularProfile>,
    messOwnerProfile: Option<MessOwnerProfile>)
}
