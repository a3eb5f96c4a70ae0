/** The plain records of the app: gender, the user record the view model stores, and expense categories. */
module Model {

  /** The three genders a user can pick at registration. */
  datatype Gender = Masculino | Femenino | Otro

  /**
   * The user record the view model builds on registration and mirrors into `users`:
   * the auth collaborator's uid, the e-mail and gender from the form, and whether the
   * terms were accepted.
   */
  datatype User = User(uid: string, email: string, gender: Gender, acceptedTerms: bool)

  /** The icon a category is drawn with (UserViewModel.kt stores the icon's hash code). */
  datatype Icon = Restaurant | DirectionsCar | Home | LocalHospital

  /** One expense category on the dashboard: its name, amount, icon and ARGB colour. */
  datatype CategoryExpense = CategoryExpense(category: string, amount: real, icon: Icon, color: int)
}
