/**
 * Accounts and seller profiles. A seller profile is keyed by its user, so a
 * user has at most one; every company, M-Pesa and WhatsApp setting is optional.
 */
module Sellers {
  import opened Wrappers

  /** A user account; the password is kept only as the hash the framework computes. */
  datatype User = User(
    username: string,
    email: string,
    passwordHash: string,
    firstName: string,
    lastName: string,
    isSuperuser: bool)

  /**
   * A seller profile. `notificationPhoneNumber` is the number that receives
   * paid-order alerts; the model file does not declare it, the sellers
   * migration 0004 adds it as a nullable column.
   */
  datatype SellerProfile = SellerProfile(
    companyName: Option<string>,
    mpesaShortcode: Option<string>,
    mpesaPasskey: Option<string>,
    mpesaConsumerKey: Option<string>,
    mpesaConsumerSecret: Option<string>,
    whatsappBspApiKey: Option<string>,
    whatsappPhoneNumberId: Option<string>,
    whatsappAppId: Option<string>,
    notificationPhoneNumber: Option<string>)

  /** A profile created with only its user given: every setting NULL. */
  const EmptyProfile := SellerProfile(None, None, None, None, None, None, None, None, None)

  /** A profile created with a company name and nothing else. */
  function NamedProfile(company: string): (p: SellerProfile)
    ensures p.companyName == Some(company)
    ensures p == EmptyProfile.(companyName := Some(company))
  {
    EmptyProfile.(companyName := Some(company))
  }

  /** Python truthiness of an optional string: present and non-empty. */
  predicate Truthy(s: Option<string>) {
    s.Some? && s.value != ""
  }

  /** `company_name or user.username`: the name a shop is greeted by. */
  function ShopName(p: SellerProfile, u: User): (r: string)
    ensures Truthy(p.companyName) ==> r == p.companyName.value
    ensures !Truthy(p.companyName) ==> r == u.username
  {
    if Truthy(p.companyName) then p.companyName.value else u.username
  }
}
