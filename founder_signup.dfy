/** The founder sign-up page (frontend/src/pages/FounderSignup.tsx): the
    five-step form's navigation, the validation of each step, and the
    submission, which uploads the chosen documents and then posts the
    sign-up. The upload and sign-up endpoints are parameters giving each
    call's reply. */
module FounderSignup {
  import opened Wrappers
  import opened Text

  datatype Step = FounderInfo | CompanyInfo | FundingDetails | CompanyStatus | Documents

  /** `nextStep`: one step forward; the last step stays put. */
  function NextStep(s: Step): Step {
    match s
    case FounderInfo => CompanyInfo
    case CompanyInfo => FundingDetails
    case FundingDetails => CompanyStatus
    case CompanyStatus => Documents
    case Documents => Documents
  }

  /** `prevStep`: one step back; the first step stays put. */
  function PrevStep(s: Step): Step {
    match s
    case FounderInfo => FounderInfo
    case CompanyInfo => FounderInfo
    case FundingDetails => CompanyInfo
    case CompanyStatus => FundingDetails
    case Documents => CompanyStatus
  }

  /** The step's place in the progress bar's list. */
  function StepIndex(s: Step): (i: nat)
    ensures i < 5
  {
    match s
    case FounderInfo => 0
    case CompanyInfo => 1
    case FundingDetails => 2
    case CompanyStatus => 3
    case Documents => 4
  }

  /** Going forward advances one place in the list except on the last step,
      going back retreats one except on the first, and each undoes the
      other away from the ends. */
  lemma StepNavigation(s: Step)
    ensures StepIndex(NextStep(s)) == if s == Documents then 4 else StepIndex(s) + 1
    ensures StepIndex(PrevStep(s)) == if s == FounderInfo then 0 else StepIndex(s) - 1
    ensures s != Documents ==> PrevStep(NextStep(s)) == s
    ensures s != FounderInfo ==> NextStep(PrevStep(s)) == s
  {
  }

  /** `s.trim() !== ''` */
  predicate Filled(s: string) {
    Trim(s) != ""
  }

  /** A field counts as filled exactly when it has a non-whitespace character. */
  lemma FilledIff(s: string)
    ensures Filled(s) <==> exists i :: 0 <= i < |s| && !IsSpace(s[i])
  {
    TrimEmptyIff(s);
  }

  datatype FounderFields = FounderFields(firstName: string, lastName: string, email: string, password: string,
                                         linkedInUrl: string, role: string, phoneNumber: string)
  datatype CompanyFields = CompanyFields(companyName: string, industry: string, stage: string, city: string, country: string)
  datatype FundingFields = FundingFields(fundingAmount: string, fundingPurpose: string, timeline: string)
  datatype StatusFields = StatusFields(isIncorporated: bool, websiteUrl: string, description: string)

  predicate IsFounderInfoValid(f: FounderFields) {
    Filled(f.firstName) && Filled(f.lastName) && Filled(f.email) && Filled(f.password)
    && Filled(f.linkedInUrl) && Filled(f.role) && Filled(f.phoneNumber)
  }

  predicate IsCompanyInfoValid(c: CompanyFields) {
    Filled(c.companyName) && Filled(c.industry) && Filled(c.stage) && Filled(c.city) && Filled(c.country)
  }

  predicate IsFundingDetailsValid(f: FundingFields) {
    Filled(f.fundingAmount) && Filled(f.fundingPurpose) && Filled(f.timeline)
  }

  /** Only the description is required; the website and the incorporation
      flag are not checked. */
  predicate IsCompanyStatusValid(s: StatusFields) {
    Filled(s.description)
  }

  /** The field holds a character that is not whitespace. */
  predicate HasText(s: string) {
    exists i :: 0 <= i < |s| && !IsSpace(s[i])
  }

  /** Each step's validator passes exactly when every field it reads holds
      a non-whitespace character; for the company status that is the
      description alone, so the website and the incorporation flag can be
      anything. */
  lemma ValidatorsNeedEveryField(f: FounderFields, c: CompanyFields, g: FundingFields, s: StatusFields, website: string)
    ensures IsFounderInfoValid(f) <==>
      HasText(f.firstName) && HasText(f.lastName) && HasText(f.email) && HasText(f.password)
      && HasText(f.linkedInUrl) && HasText(f.role) && HasText(f.phoneNumber)
    ensures IsCompanyInfoValid(c) <==>
      HasText(c.companyName) && HasText(c.industry) && HasText(c.stage) && HasText(c.city) && HasText(c.country)
    ensures IsFundingDetailsValid(g) <==>
      HasText(g.fundingAmount) && HasText(g.fundingPurpose) && HasText(g.timeline)
    ensures IsCompanyStatusValid(s) <==> HasText(s.description)
    ensures IsCompanyStatusValid(s) <==> IsCompanyStatusValid(s.(websiteUrl := website, isIncorporated := !s.isIncorporated))
  {
    FilledIff(f.firstName); FilledIff(f.lastName); FilledIff(f.email); FilledIff(f.password);
    FilledIff(f.linkedInUrl); FilledIff(f.role); FilledIff(f.phoneNumber);
    FilledIff(c.companyName); FilledIff(c.industry); FilledIff(c.stage); FilledIff(c.city); FilledIff(c.country);
    FilledIff(g.fundingAmount); FilledIff(g.fundingPurpose); FilledIff(g.timeline);
    FilledIff(s.description);
  }

  // ---------------------------------------------------------------------
  // Submission

  datatype DocKind = PitchDeck | BusinessPlan | FinancialModel | ProductDemo

  /** `docTypes`, in the order they are walked. */
  const DocTypes: seq<DocKind> := [PitchDeck, BusinessPlan, FinancialModel, ProductDemo]

  /** The chosen file of each kind (a name standing for the `File`). */
  datatype DocumentChoice = DocumentChoice(pitchDeck: Option<string>, businessPlan: Option<string>,
                                           financialModel: Option<string>, productDemo: Option<string>)

  function FileOf(d: DocumentChoice, k: DocKind): Option<string> {
    match k
    case PitchDeck => d.pitchDeck
    case BusinessPlan => d.businessPlan
    case FinancialModel => d.financialModel
    case ProductDemo => d.productDemo
  }

  /** The payload key each kind's URL is stored under. */
  function UrlKey(k: DocKind): string {
    match k
    case PitchDeck => "pitch_deck_file_url"
    case BusinessPlan => "business_plan_file_url"
    case FinancialModel => "financial_model_file_url"
    case ProductDemo => "product_demo_file_url"
  }

  /** What one upload gave: a reply with its optional `cloud_url`, or a
      rejection with its optional message. */
  datatype UploadReply = Uploaded(cloudUrl: Option<string>) | UploadFailed(message: Option<string>)

  /** What the sign-up endpoint gave. */
  datatype SignupReply = SignedUp(email: string, firstName: string, lastName: string, token: string)
                       | SignupFailed(message: Option<string>)

  datatype Payload = Payload(founder: FounderFields, company: CompanyFields, funding: FundingFields,
                             status: StatusFields, documents: Option<map<string, string>>)

  /** The chosen files of `kinds`, in order, with their kinds: what the
      `forEach` sends for upload. */
  function Chosen(d: DocumentChoice, kinds: seq<DocKind>): (r: seq<(DocKind, string)>)
    decreases |kinds|
  {
    if kinds == [] then []
    else
      var init, k := kinds[..|kinds| - 1], kinds[|kinds| - 1];
      Chosen(d, init) + (if FileOf(d, k).Some? then [(k, FileOf(d, k).value)] else [])
  }

  /** Exactly the chosen documents of `kinds` are sent, each with its file. */
  lemma {:induction false} ChosenExact(d: DocumentChoice, kinds: seq<DocKind>)
    ensures forall k :: (exists f :: (k, f) in Chosen(d, kinds)) <==> k in kinds && FileOf(d, k).Some?
    ensures forall e :: e in Chosen(d, kinds) ==> FileOf(d, e.0) == Some(e.1)
    decreases |kinds|
  {
    if kinds != [] {
      var init, k := kinds[..|kinds| - 1], kinds[|kinds| - 1];
      assert kinds == init + [k];
      ChosenExact(d, init);
      var r := Chosen(d, kinds);
      assert FileOf(d, k).Some? ==> (k, FileOf(d, k).value) in r;
    }
  }

  /** A document is sent at most once when the kinds are distinct. */
  lemma {:induction false} ChosenOnce(d: DocumentChoice, kinds: seq<DocKind>)
    requires forall i, j :: 0 <= i < j < |kinds| ==> kinds[i] != kinds[j]
    ensures forall i, j :: 0 <= i < j < |Chosen(d, kinds)| ==> Chosen(d, kinds)[i].0 != Chosen(d, kinds)[j].0
    decreases |kinds|
  {
    if kinds != [] {
      var init, k := kinds[..|kinds| - 1], kinds[|kinds| - 1];
      ChosenOnce(d, init);
      ChosenExact(d, init);
      assert forall e :: e in Chosen(d, init) ==> e.0 in init;
    }
  }

  /** A usable `cloud_url`: present and truthy. */
  function CloudUrl(reply: UploadReply): Option<string> {
    if reply.Uploaded? && reply.cloudUrl.Some? && reply.cloudUrl.value != "" then reply.cloudUrl else None
  }

  /** `fileUrls` once every upload of `kinds` has answered. */
  function Urls(d: DocumentChoice, kinds: seq<DocKind>, upload: DocKind -> UploadReply): (m: map<string, string>)
    decreases |kinds|
  {
    if kinds == [] then map[]
    else
      var k := kinds[|kinds| - 1];
      var prior := Urls(d, kinds[..|kinds| - 1], upload);
      if FileOf(d, k).Some? && CloudUrl(upload(k)).Some? then prior[UrlKey(k) := CloudUrl(upload(k)).value] else prior
  }

  /** A chosen document whose upload returned a URL has it stored under
      its own key; every stored URL belongs to a chosen document whose
      upload returned exactly that URL. */
  lemma {:induction false} UrlsExact(d: DocumentChoice, kinds: seq<DocKind>, upload: DocKind -> UploadReply)
    ensures forall k :: k in kinds && FileOf(d, k).Some? && CloudUrl(upload(k)).Some? ==>
      UrlKey(k) in Urls(d, kinds, upload) && Some(Urls(d, kinds, upload)[UrlKey(k)]) == CloudUrl(upload(k))
    ensures forall key :: key in Urls(d, kinds, upload) ==>
      exists k :: k in kinds && UrlKey(k) == key && FileOf(d, k).Some? && CloudUrl(upload(k)) == Some(Urls(d, kinds, upload)[key])
    decreases |kinds|
  {
    if kinds != [] {
      var init, last := kinds[..|kinds| - 1], kinds[|kinds| - 1];
      assert kinds == init + [last];
      UrlsExact(d, init, upload);
      var prior := Urls(d, init, upload);
      var m := Urls(d, kinds, upload);
      forall key | key in m
        ensures exists k :: k in kinds && UrlKey(k) == key && FileOf(d, k).Some? && CloudUrl(upload(k)) == Some(m[key])
      {
        if FileOf(d, last).Some? && CloudUrl(upload(last)).Some? && key == UrlKey(last) {
          assert last in kinds;
        } else {
          assert key in prior && m[key] == prior[key];
          var k :| k in init && UrlKey(k) == key && FileOf(d, k).Some? && CloudUrl(upload(k)) == Some(prior[key]);
          assert k in kinds;
        }
      }
      forall k | k in kinds && FileOf(d, k).Some? && CloudUrl(upload(k)).Some?
        ensures UrlKey(k) in m && Some(m[UrlKey(k)]) == CloudUrl(upload(k))
      {
        if k != last {
          assert k in init;
          UrlKeyInjective(k, last);
        }
      }
    }
  }

  lemma UrlKeyInjective(a: DocKind, b: DocKind)
    ensures UrlKey(a) == UrlKey(b) ==> a == b
  {
  }

  /** The rejection `Promise.all` reports, taken as the first failed upload
      of a chosen document in `docTypes` order. */
  function FirstFailure(d: DocumentChoice, kinds: seq<DocKind>, upload: DocKind -> UploadReply): (r: Option<Option<string>>)
    ensures r.None? <==> forall k :: k in kinds && FileOf(d, k).Some? ==> upload(k).Uploaded?
    decreases |kinds|
  {
    if kinds == [] then None
    else
      var init, k := kinds[..|kinds| - 1], kinds[|kinds| - 1];
      assert kinds == init + [k];
      var prior := FirstFailure(d, init, upload);
      if prior.Some? then prior
      else if FileOf(d, k).Some? && upload(k).UploadFailed? then Some(upload(k).message)
      else None
  }

  /** The payload: `documents` is left out when no URL was obtained. */
  function BuildPayload(f: FounderFields, c: CompanyFields, g: FundingFields, s: StatusFields, urls: map<string, string>): (p: Payload)
    ensures p.documents.None? <==> urls == map[]
    ensures p.documents.Some? ==> p.documents.value == urls
  {
    Payload(f, c, g, s, if |urls| > 0 then Some(urls) else None)
  }

  /** `err.message || 'Signup failed'` */
  function FailureText(message: Option<string>): string {
    if message.Some? && message.value != "" then message.value else "Signup failed"
  }

  const ConsentError := "You must consent to share your documents with VCs to complete registration."

  /** The page's state that `handleSubmit` reads and writes, with a log of
      the calls it makes: files sent for upload, the payload posted, the
      user logged in, and the navigation to `/auth`. */
  class SignupPage {
    var founder: FounderFields
    var company: CompanyFields
    var funding: FundingFields
    var status: StatusFields
    var documents: DocumentChoice
    var consent: bool
    var error: Option<string>
    var showLoading: bool
    var uploadsSent: seq<(DocKind, string)>
    var posted: Option<Payload>
    var loggedIn: Option<string>
    var navigatedToAuth: bool

    constructor(founder: FounderFields, company: CompanyFields, funding: FundingFields, status: StatusFields,
                documents: DocumentChoice, consent: bool)
      ensures this.founder == founder && this.company == company && this.funding == funding && this.status == status
      ensures this.documents == documents && this.consent == consent
      ensures error.None? && !showLoading && uploadsSent == [] && posted.None? && loggedIn.None? && !navigatedToAuth
    {
      this.founder := founder;
      this.company := company;
      this.funding := funding;
      this.status := status;
      this.documents := documents;
      this.consent := consent;
      error := None;
      showLoading := false;
      uploadsSent := [];
      posted := None;
      loggedIn := None;
      navigatedToAuth := false;
    }

    /** The `forEach` over `docTypes` and the `Promise.all` after it: each
        chosen file is sent, the URLs returned are kept under their keys,
        and the first failure is reported. */
    method UploadDocuments(kinds: seq<DocKind>, upload: DocKind -> UploadReply)
      returns (fileUrls: map<string, string>, failure: Option<Option<string>>)
      modifies this`uploadsSent
      ensures uploadsSent == old(uploadsSent) + Chosen(documents, kinds)
      ensures fileUrls == Urls(documents, kinds, upload)
      ensures failure == FirstFailure(documents, kinds, upload)
    {
      fileUrls := map[];
      failure := None;
      var i := 0;
      while i < |kinds|
        invariant 0 <= i <= |kinds|
        invariant uploadsSent == old(uploadsSent) + Chosen(documents, kinds[..i])
        invariant fileUrls == Urls(documents, kinds[..i], upload)
        invariant failure == FirstFailure(documents, kinds[..i], upload)
      {
        var kind := kinds[i];
        assert kinds[..i + 1][..i] == kinds[..i];
        var file := FileOf(documents, kind);
        if file.Some? {
          uploadsSent := uploadsSent + [(kind, file.value)];
          match upload(kind) {
            case Uploaded(_) =>
              var url := CloudUrl(upload(kind));
              if url.Some? {
                fileUrls := fileUrls[UrlKey(kind) := url.value];
              }
            case UploadFailed(message) =>
              if failure.None? {
                failure := Some(message);
              }
          }
        }
        i := i + 1;
      }
      assert kinds[..i] == kinds;
    }

    /** `handleSubmit`: without consent only the error is set. Otherwise
        each chosen document is uploaded once, in `docTypes` order, its URL
        kept under its own key; a failed upload stops before the sign-up
        request; the request carries the URLs, or no `documents` at all. */
    method HandleSubmit(upload: DocKind -> UploadReply, signup: SignupReply)
      modifies this`error, this`showLoading, this`uploadsSent, this`posted, this`loggedIn, this`navigatedToAuth
      ensures !consent ==> (error == Some(ConsentError) && showLoading == old(showLoading)
        && uploadsSent == old(uploadsSent) && posted == old(posted) && loggedIn == old(loggedIn)
        && navigatedToAuth == old(navigatedToAuth))
      ensures consent ==> (!showLoading && uploadsSent == old(uploadsSent) + Chosen(documents, DocTypes))
      ensures consent && FirstFailure(documents, DocTypes, upload).Some? ==>
        (error == Some(FailureText(FirstFailure(documents, DocTypes, upload).value)) && posted == old(posted)
         && loggedIn == old(loggedIn) && navigatedToAuth == old(navigatedToAuth))
      ensures consent && FirstFailure(documents, DocTypes, upload).None? ==>
        (posted == Some(BuildPayload(founder, company, funding, status, Urls(documents, DocTypes, upload)))
         && (signup.SignedUp? ==> loggedIn == Some(signup.email) && navigatedToAuth && error.None?)
         && (signup.SignupFailed? ==> (error == Some(FailureText(signup.message))
               && loggedIn == old(loggedIn) && navigatedToAuth == old(navigatedToAuth))))
    {
      error := None;
      if !consent {
        error := Some(ConsentError);
        return;
      }
      SubmitDocuments(DocTypes, upload, signup);
    }

    /** `handleSubmit` once consent is given, over the document kinds
        `kinds`: upload, then stop on a failure or post the sign-up. */
    method SubmitDocuments(kinds: seq<DocKind>, upload: DocKind -> UploadReply, signup: SignupReply)
      modifies this`error, this`showLoading, this`uploadsSent, this`posted, this`loggedIn, this`navigatedToAuth
      ensures !showLoading && uploadsSent == old(uploadsSent) + Chosen(documents, kinds)
      ensures FirstFailure(documents, kinds, upload).Some? ==>
        (error == Some(FailureText(FirstFailure(documents, kinds, upload).value)) && posted == old(posted)
         && loggedIn == old(loggedIn) && navigatedToAuth == old(navigatedToAuth))
      ensures FirstFailure(documents, kinds, upload).None? ==>
        (posted == Some(BuildPayload(founder, company, funding, status, Urls(documents, kinds, upload)))
         && (signup.SignedUp? ==> loggedIn == Some(signup.email) && navigatedToAuth && error == old(error))
         && (signup.SignupFailed? ==> (error == Some(FailureText(signup.message))
               && loggedIn == old(loggedIn) && navigatedToAuth == old(navigatedToAuth))))
    {
      showLoading := true;
      var fileUrls, failure := UploadDocuments(kinds, upload);
      if failure.Some? {
        showLoading := false;
        error := Some(FailureText(failure.value));
        return;
      }
      PostSignup(fileUrls, signup);
    }

    /** The sign-up request and what its reply leads to: the user is logged
        in and sent to the auth page, or the server's message is shown. */
    method PostSignup(fileUrls: map<string, string>, signup: SignupReply)
      modifies this`error, this`showLoading, this`posted, this`loggedIn, this`navigatedToAuth
      ensures posted == Some(BuildPayload(founder, company, funding, status, fileUrls)) && !showLoading
      ensures signup.SignedUp? ==> loggedIn == Some(signup.email) && navigatedToAuth && error == old(error)
      ensures signup.SignupFailed? ==> (error == Some(FailureText(signup.message))
        && loggedIn == old(loggedIn) && navigatedToAuth == old(navigatedToAuth))
    {
      posted := Some(BuildPayload(founder, company, funding, status, fileUrls));
      match signup {
        case SignedUp(email, _, _, _) =>
          loggedIn := Some(email);
          showLoading := false;
          navigatedToAuth := true;
        case SignupFailed(message) =>
          showLoading := false;
          error := Some(FailureText(message));
      }
    }
  }
}
