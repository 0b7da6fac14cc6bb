/** The three kinds of user the site serves; the page shell and the sign-in dialog are parameterised by one. */
module UserRoles {

  datatype Role = Donor | Patient | Hospital
}
