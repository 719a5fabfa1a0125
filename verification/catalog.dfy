/**
 * The static resource catalog of the triage flow: two national records keyed
 * by contact method, and six local records keyed by concern, then by contact
 * method.
 */
module Catalog {
  import opened Optional

  /** One support resource (`name` is the source's `label`); `instruction` is absent on the phone records. */
  datatype Resource = Resource(
    number: string,
    instruction: Option<string>,
    name: string,
    hours: string,
    description: string)

  const NationalPhone := Resource("988", None, "Suicide & Crisis Lifeline", "24/7",
    "Free, confidential support for people in distress")
  const NationalText := Resource("988", Some("Text or message"), "Crisis Text Line", "24/7",
    "Connect with a trained crisis counselor")

  const BurnoutPhone := Resource("1-800-273-8255", None, "Workplace Burnout Hotline", "Mon-Fri 9AM-8PM",
    "Specialized support for workplace and caregiver burnout")
  const BurnoutText := Resource("BURNOUT", Some("Text to 741741"), "Burnout Text Support", "Daily 10AM-10PM",
    "Text-based support for burnout and stress management")
  const CrisisPhone := Resource("1-800-784-2433", None, "Local Crisis Response", "24/7",
    "Immediate crisis intervention and support")
  const CrisisText := Resource("HOME", Some("Text to 741741"), "Crisis Text Support", "24/7",
    "24/7 text-based crisis support")
  const GeneralPhone := Resource("1-800-662-4357", None, "Mental Health Helpline", "Mon-Sat 8AM-8PM",
    "General mental health support and counseling")
  const GeneralText := Resource("HELLO", Some("Text to 741741"), "Counseling Text Support", "Daily 9AM-9PM",
    "Text-based counseling and emotional support")

  /** `resources.national`, keyed by contact method. */
  const National: map<string, Resource> := map["phone" := NationalPhone, "text" := NationalText]

  /** `resources.local`, keyed by concern and then by contact method. */
  const Local: map<string, map<string, Resource>> := map[
    "burnout" := map["phone" := BurnoutPhone, "text" := BurnoutText],
    "crisis" := map["phone" := CrisisPhone, "text" := CrisisText],
    "general" := map["phone" := GeneralPhone, "text" := GeneralText]]

  /** The contact methods and concerns the catalog is keyed by. */
  const ContactMethods: set<string> := {"phone", "text"}
  const Concerns: set<string> := {"burnout", "crisis", "general"}

  /** Every record the catalog holds. */
  const AllRecords: set<Resource> := {NationalPhone, NationalText, BurnoutPhone, BurnoutText,
    CrisisPhone, CrisisText, GeneralPhone, GeneralText}

  /**
   * The catalog's shape: the national table and every local sub-table are
   * keyed by exactly the two contact methods, the local table by exactly the
   * three concerns, and every entry is one of the eight records.
   */
  lemma CatalogShape()
    ensures National.Keys == ContactMethods
    ensures Local.Keys == Concerns
    ensures forall c :: c in Local ==> Local[c].Keys == ContactMethods
    ensures forall m :: m in National ==> National[m] in AllRecords
    ensures forall c, m :: c in Local && m in Local[c] ==> Local[c][m] in AllRecords
  {
  }
}
