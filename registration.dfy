/** The registration being fanned out: read-only for the whole run. */
module Registrations {

  datatype Registration = Registration(
    globalId: string,
    name: string,
    fullName: string,
    givenName: string,
    familyName: string,
    sex: string,
    birthdate: string,
    street: string,
    city: string,
    state: string,
    zip: string,
    country: string,
    /** Registration.localIDTable: the patient id each system assigned. */
    localIds: map<string, string>)
}
