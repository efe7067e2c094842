/** The detail fetcher (`get_business_details`): the provider's place record,
    the website body and the extractors' findings become one twelve-field row
    in which every missing value is the placeholder string. */
module Details {
  import opened Common
  import opened Phones
  import opened Social

  /** The fields of the provider's detail reply (`details['result']`) that the
      row uses; a field the reply leaves out is `None`, and a reply without a
      'result' entry has every field `None`. */
  datatype PlaceResult = PlaceResult(
    name: Option<string>,
    formattedAddress: Option<string>,
    website: Option<string>,
    formattedPhoneNumber: Option<string>,
    rating: Option<real>,
    postalCode: Option<string>)

  /** A cell of the table: text, or the provider's numeric rating. */
  datatype Cell = Text(text: string) | Number(value: real)

  /** One row of the result table, keyed as the source keys it. */
  datatype BusinessRecord = BusinessRecord(
    nombre: string,
    direccion: string,
    website: string,
    codigoPostal: string,
    telefonoFijo: string,
    telefonoMovil: string,
    email: string,
    facebook: string,
    instagram: string,
    linkedin: string,
    tiktok: string,
    rating: Cell)

  /** `result.get(key, 'Sin datos por el momento')` */
  function GetOrSentinel(v: Option<string>): string {
    if v.Some? then v.value else Sentinel
  }

  /** `value or 'Sin datos por el momento'`: `None` and `''` are both falsy. */
  function OrSentinel(v: Option<string>): string {
    if v.Some? && v.value != "" then v.value else Sentinel
  }

  /** The page text handed to the extractors. `response` is the body of the
      website's reply, or `None` when `requests.get` raised; it is consulted
      only when the place has a website. */
  function WebsiteContent(result: PlaceResult, response: Option<string>): (content: string)
    ensures result.website.Some? && response.Some? ==> content == response.value
    ensures result.website.None? || response.None? ==> content == ""
  {
    if result.website.Some? && response.Some? then response.value else ""
  }

  /** `str(result.get('formatted_phone_number', ''))` */
  function PhoneText(result: PlaceResult): string {
    if result.formattedPhoneNumber.Some? then result.formattedPhoneNumber.value else ""
  }

  /** A phone column: `', '.join(...)` of the list `extract_phones` gives for
      kind `k`. It is the placeholder exactly when the text holds no number of
      that kind, and otherwise reads back as the numbers found, in order. */
  function PhoneField(k: Kind, text: string): (field: string)
    ensures field == Sentinel <==> NoMatch(k, text)
    ensures field != Sentinel ==> field == Join(FindAll(k, text), ", ")
    ensures field != Sentinel ==> SplitPhoneField(field) == FindAll(k, text)
  {
    var found := ExtractPhones(text);
    var phones := if k == Landline then found.fijos else found.moviles;
    var numbers := FindAll(k, text);
    if numbers == [] then
      assert phones == [Sentinel];
      Sentinel
    else
      assert phones == numbers;
      JoinedPhones(k, numbers);
      Join(phones, ", ")
  }

  /** A social-media column: the platform's link, or the placeholder exactly
      when the page holds no match for the platform's pattern. */
  function SocialField(p: Platform, content: string): (field: string)
    ensures field == Sentinel <==> NoLink(p, content)
    ensures Search(p, content).Some? ==> field == Search(p, content).value
  {
    SearchShape(p, content);
    SocialMediaAt(content, p);
    var link := SocialMedia(content)[p];
    assert link.Some? ==> link.value != "" && link.value[0] == Prefix(p)[0] != Sentinel[0];
    OrSentinel(link)
  }

  /** The dictionary literal at the end of `get_business_details`, built from
      the provider's fields, the page text and the extracted e-mail list. */
  function AssembleRecord(result: PlaceResult, content: string, emails: seq<string>): (r: BusinessRecord)
    ensures r.nombre == (if result.name.Some? then result.name.value else Sentinel)
    ensures r.direccion == (if result.formattedAddress.Some? then result.formattedAddress.value else Sentinel)
    ensures r.website == (if result.website.Some? then result.website.value else Sentinel)
    ensures r.codigoPostal == (if result.postalCode.Some? then result.postalCode.value else Sentinel)
    ensures r.rating == (if result.rating.Some? then Number(result.rating.value) else Text(Sentinel))
    ensures r.telefonoFijo == Sentinel <==> NoMatch(Landline, content + PhoneText(result))
    ensures r.telefonoFijo != Sentinel ==>
              SplitPhoneField(r.telefonoFijo) == FindAll(Landline, content + PhoneText(result))
    ensures r.telefonoMovil == Sentinel <==> NoMatch(Mobile, content + PhoneText(result))
    ensures r.telefonoMovil != Sentinel ==>
              SplitPhoneField(r.telefonoMovil) == FindAll(Mobile, content + PhoneText(result))
    ensures r.telefonoFijo == PhoneField(Landline, content + PhoneText(result))
    ensures r.telefonoMovil == PhoneField(Mobile, content + PhoneText(result))
    ensures r.email == Sentinel <==> emails == [] || Join(emails, ", ") == Sentinel
    ensures emails != [] ==> r.email == Join(emails, ", ")
    ensures r.facebook == Sentinel <==> NoLink(Facebook, content)
    ensures r.instagram == Sentinel <==> NoLink(Instagram, content)
    ensures r.linkedin == Sentinel <==> NoLink(LinkedIn, content)
    ensures r.tiktok == Sentinel <==> NoLink(TikTok, content)
    ensures r.facebook == SocialField(Facebook, content)
    ensures r.instagram == SocialField(Instagram, content)
    ensures r.linkedin == SocialField(LinkedIn, content)
    ensures r.tiktok == SocialField(TikTok, content)
  {
    var phoneText := content + PhoneText(result);
    var r := BusinessRecord(
      nombre := GetOrSentinel(result.name),
      direccion := GetOrSentinel(result.formattedAddress),
      website := GetOrSentinel(result.website),
      codigoPostal := GetOrSentinel(result.postalCode),
      telefonoFijo := PhoneField(Landline, phoneText),
      telefonoMovil := PhoneField(Mobile, phoneText),
      email := if emails != [] then Join(emails, ", ") else Sentinel,
      facebook := SocialField(Facebook, content),
      instagram := SocialField(Instagram, content),
      linkedin := SocialField(LinkedIn, content),
      tiktok := SocialField(TikTok, content),
      rating := if result.rating.Some? then Number(result.rating.value) else Text(Sentinel));
    r
  }

  /** `get_business_details` with a working e-mail extractor: `reply` is the
      provider's answer (`None` when the call raised), `response` the website's
      body (`None` when the GET raised), `extractEmails` the e-mail scan. */
  function BusinessDetails(reply: Option<PlaceResult>, response: Option<string>,
                           extractEmails: string -> seq<string>): (r: Option<BusinessRecord>)
    ensures r.Some? <==> reply.Some?
    ensures reply.Some? ==>
      var content := WebsiteContent(reply.value, response);
      r.value == AssembleRecord(reply.value, content, extractEmails(content))
  {
    match reply
    case None => None
    case Some(result) =>
      var content := WebsiteContent(result, response);
      Some(AssembleRecord(result, content, extractEmails(content)))
  }

  /** A place without a website, or whose website could not be fetched, still
      gives a row: its social columns are the placeholder and its phone
      columns come from the provider's phone number alone. */
  lemma NoPageStillGivesRecord(result: PlaceResult, response: Option<string>,
                               extractEmails: string -> seq<string>)
    requires result.website.None? || response.None?
    ensures BusinessDetails(Some(result), response, extractEmails).Some?
    ensures var r := BusinessDetails(Some(result), response, extractEmails).value;
      && r.facebook == r.instagram == r.linkedin == r.tiktok == Sentinel
      && r.telefonoFijo == PhoneField(Landline, PhoneText(result))
      && r.telefonoMovil == PhoneField(Mobile, PhoneText(result))
  {
    assert WebsiteContent(result, response) == "";
    assert "" + PhoneText(result) == PhoneText(result);
  }

  /** A place whose website was fetched gives the row scanned over the page
      body: the social columns hold the page's links, the phone columns the
      numbers in the body followed by the provider's number, and the e-mail
      column the extractor's findings on the body. */
  lemma PageIsScanned(result: PlaceResult, body: string, extractEmails: string -> seq<string>)
    requires result.website.Some?
    ensures BusinessDetails(Some(result), Some(body), extractEmails).Some?
    ensures var r := BusinessDetails(Some(result), Some(body), extractEmails).value;
      && r.facebook == SocialField(Facebook, body)
      && r.instagram == SocialField(Instagram, body)
      && r.linkedin == SocialField(LinkedIn, body)
      && r.tiktok == SocialField(TikTok, body)
      && r.telefonoFijo == PhoneField(Landline, body + PhoneText(result))
      && r.telefonoMovil == PhoneField(Mobile, body + PhoneText(result))
      && (extractEmails(body) != [] ==> r.email == Join(extractEmails(body), ", "))
  {
    assert WebsiteContent(result, Some(body)) == body;
  }

  /** The outcome of calling a name: its value, or an exception. */
  datatype Call<T> = Returned(value: T) | Raised

  /** `extract_emails(website_content)` as the module stands: the name is bound
      nowhere in it, so the call raises NameError. */
  function ExtractEmailsAsWritten(content: string): Call<seq<string>> {
    Raised
  }

  /** `get_business_details` as written: the NameError from the e-mail call is
      caught by the function's own handler, which returns `None`. */
  function BusinessDetailsAsWritten(reply: Option<PlaceResult>, response: Option<string>): (r: Option<BusinessRecord>)
    ensures r == None
  {
    match reply
    case None => None
    case Some(result) =>
      var content := WebsiteContent(result, response);
      match ExtractEmailsAsWritten(content)
      case Raised => None
      case Returned(emails) => Some(AssembleRecord(result, content, emails))
  }
}
