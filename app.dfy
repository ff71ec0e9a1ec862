/** The dashboard: the search filter and the structural-position count over the
    fetched list, the status badge, the three-step form with its Next and Previous
    buttons, the document upload into the record being edited, and the save
    routine that chooses between PUT and POST and turns a failed reply into the
    message it shows. */
module App {
  import opened JsValues
  import opened EmployeeTypes
  import opened RecordStore

  // ---------------------------------------------------------------------------
  // Search

  /** The search test: the lower-cased name or position contains the lower-cased
      term, or the nip contains the term as typed. */
  predicate MatchesSearch(e: Employee, term: string) {
    Includes(Lower(e.name), Lower(term))
    || Includes(e.nip, term)
    || Includes(Lower(e.position), Lower(term))
  }

  /** The search test as the callback handed to `filter`. */
  function SearchTest(term: string): Employee -> bool {
    e => MatchesSearch(e, term)
  }

  /** The rows the employee table shows: those that match the search term, in the
      order of the fetched list; an empty term shows every row. */
  function FilterEmployees(es: seq<Employee>, term: string): (r: seq<Employee>)
    ensures IsSubsequence(r, es)
    ensures forall e :: e in r <==> e in es && MatchesSearch(e, term)
    ensures term == "" ==> r == es
  {
    FilterIsSubsequence(es, SearchTest(term));
    EmptyTermKeepsAll(es, term);
    Filter(es, SearchTest(term))
  }

  lemma EmptyTermKeepsAll(es: seq<Employee>, term: string)
    ensures term == "" ==> Filter(es, SearchTest(term)) == es
  {
    if term == "" {
      forall e | e in es ensures SearchTest(term)(e) {
        IncludesEmpty(Lower(e.name));
      }
      FilterKeepsAll(es, SearchTest(term));
    }
  }

  /** Typing more narrows the table: a term that contains an earlier term shows a
      subsequence of what the earlier term showed. */
  lemma NarrowingSearchKeepsFewer(es: seq<Employee>, shorter: string, longer: string)
    requires Includes(longer, shorter)
    ensures IsSubsequence(FilterEmployees(es, longer), FilterEmployees(es, shorter))
  {
    forall e | SearchTest(longer)(e) ensures SearchTest(shorter)(e) {
      LowerPreservesIncludes(longer, shorter);
      if Includes(Lower(e.name), Lower(longer)) {
        IncludesTransitive(Lower(e.name), Lower(longer), Lower(shorter));
      } else if Includes(e.nip, longer) {
        IncludesTransitive(e.nip, longer, shorter);
      } else {
        IncludesTransitive(Lower(e.position), Lower(longer), Lower(shorter));
      }
    }
    FilterStronger(es, SearchTest(longer), SearchTest(shorter));
  }

  // ---------------------------------------------------------------------------
  // The "Jabatan Struktural" card

  /** A structural position: the lower-cased position names a head (`kepala`) or a
      division head (`kabid`). */
  predicate IsStructural(e: Employee) {
    Includes(Lower(e.position), "kepala") || Includes(Lower(e.position), "kabid")
  }

  /** The number of fetched rows holding a structural position: the number of
      positions of the list whose row holds one, so never more than there are rows,
      and non-zero exactly when some row holds one. */
  function StructuralCount(es: seq<Employee>): (n: nat)
    ensures n == |Passing(es, IsStructural)|
    ensures n <= |es|
    ensures n > 0 <==> exists e :: e in es && IsStructural(e)
  {
    var r := Filter(es, IsStructural);
    FilterLength(es, IsStructural);
    assert r != [] ==> r[0] in r;
    |r|
  }

  // ---------------------------------------------------------------------------
  // The status badge

  datatype Badge = Emerald | Blue | Amber | Zinc

  /** The badge colour of a status: emerald for `ASN`, blue for `Calon PNS`, amber
      for any other status naming `P3K`, zinc for the rest. Exactly one applies. */
  function BadgeFor(status: string): (b: Badge)
    ensures b == Emerald <==> status == "ASN"
    ensures b == Blue <==> status == "Calon PNS"
    ensures b == Amber <==> status != "ASN" && status != "Calon PNS" && Includes(status, "P3K")
    ensures b == Zinc <==> status != "ASN" && status != "Calon PNS" && !Includes(status, "P3K")
  {
    if status == "ASN" then Emerald
    else if status == "Calon PNS" then Blue
    else if Includes(status, "P3K") then Amber
    else Zinc
  }

  /** A string that includes a non-empty block contains the block's first character. */
  lemma IncludesFirstChar(s: string, t: string)
    requires Includes(s, t) && t != ""
    ensures t[0] in s
  {
    var i :| 0 <= i <= |s| && InfixAt(s, t, i);
    assert s[i..i + |t|][0] == s[i];
  }

  /** The five declared statuses: both P3K kinds are amber, and `Aktif`, which holds
      no `P3K`, is zinc. */
  lemma DeclaredStatusBadges()
    ensures BadgeFor(StatusText(Asn)) == Emerald
    ensures BadgeFor(StatusText(CalonPns)) == Blue
    ensures BadgeFor(StatusText(P3kPenuhWaktu)) == Amber
    ensures BadgeFor(StatusText(P3kParuhWaktu)) == Amber
    ensures BadgeFor(StatusText(Aktif)) == Zinc
  {
    assert InfixAt("P3K Penuh Waktu", "P3K", 0);
    assert InfixAt("P3K Paruh Waktu", "P3K", 0);
    if Includes("Aktif", "P3K") {
      IncludesFirstChar("Aktif", "P3K");
      assert false;
    }
  }

  // ---------------------------------------------------------------------------
  // The status drop-down

  /** The option values of the status drop-down: a blank placeholder and four of
      the five declared statuses. */
  const StatusOptions: seq<string> := ["", "ASN", "Calon PNS", "P3K Penuh Waktu", "P3K Paruh Waktu"]

  /** Every non-blank option is a declared status, and `Aktif` is the one declared
      status the form cannot pick. */
  lemma StatusOptionsDeclared()
    ensures forall i :: 1 <= i < |StatusOptions| ==> ParseStatus(StatusOptions[i]).Some?
    ensures forall s: Status :: StatusText(s) in StatusOptions <==> s != Aktif
  {
    forall s: Status ensures StatusText(s) in StatusOptions <==> s != Aktif {
      if s != Aktif {
        StatusOptionIndex(s);
      }
    }
  }

  lemma StatusOptionIndex(s: Status)
    requires s != Aktif
    ensures StatusText(s) in StatusOptions
  {
    match s
    case Asn => assert StatusOptions[1] == StatusText(s);
    case CalonPns => assert StatusOptions[2] == StatusText(s);
    case P3kPenuhWaktu => assert StatusOptions[3] == StatusText(s);
    case P3kParuhWaktu => assert StatusOptions[4] == StatusText(s);
  }

  /** Leaving the drop-down on its placeholder sends a blank status, which the
      server stores as `ASN`. */
  lemma BlankStatusStoredAsAsn(body: Body, id: int, createdAt: string)
    requires "status" in body && body["status"] == StatusOptions[0]
    ensures Normalised(body, id, createdAt).status == StatusText(Asn)
  {
  }

  // ---------------------------------------------------------------------------
  // The three form sections

  datatype Section = Personal | Employment | Documents

  /** The section's place in the form, from 0. */
  function Position(s: Section): nat {
    match s
    case Personal => 0
    case Employment => 1
    case Documents => 2
  }

  /** The "Selanjutnya" button is rendered everywhere but on the last section. */
  predicate ShowsNext(s: Section) {
    s != Documents
  }

  /** The "Sebelumnya" button is rendered everywhere but on the first section. */
  predicate ShowsPrev(s: Section) {
    s != Personal
  }

  /** The section after a click on Next. Both tests of the handler read the section
      of the render the click came from, so a click moves one step. */
  function NextSection(s: Section): (r: Section)
    ensures ShowsNext(s) ==> Position(r) == Position(s) + 1
    ensures !ShowsNext(s) ==> r == s
  {
    var afterFirst := if s == Personal then Employment else s;
    if s == Employment then Documents else afterFirst
  }

  /** The section after a click on Previous, read the same way. */
  function PrevSection(s: Section): (r: Section)
    ensures ShowsPrev(s) ==> Position(r) + 1 == Position(s)
    ensures !ShowsPrev(s) ==> r == s
  {
    var afterFirst := if s == Employment then Personal else s;
    if s == Documents then Employment else afterFirst
  }

  /** Previous undoes Next and Next undoes Previous, wherever the button is shown. */
  lemma NextPrevInverse(s: Section)
    ensures ShowsNext(s) ==> ShowsPrev(NextSection(s)) && PrevSection(NextSection(s)) == s
    ensures ShowsPrev(s) ==> ShowsNext(PrevSection(s)) && NextSection(PrevSection(s)) == s
  {
  }

  /** Two clicks on Next from the first section reach the last one. */
  lemma NextWalksTheForm()
    ensures NextSection(Personal) == Employment
    ensures NextSection(NextSection(Personal)) == Documents
    ensures !ShowsNext(NextSection(NextSection(Personal)))
  {
  }

  // ---------------------------------------------------------------------------
  // handleSave: the request

  /** The record being edited, as the form holds it: a partial record, field by
      JSON name. */
  type Draft = map<string, Json>

  datatype HttpMethod = Put | Post

  /** A request handleSave sends: the method, the URL and the JSON payload. */
  datatype Request = Request(verb: HttpMethod, url: string, payload: Draft)

  /** `!!editingEmployee?.id`: a record is edited, and its id is truthy. */
  predicate IsUpdate(editing: Option<Draft>) {
    editing.Some? && "id" in editing.value && Truthy(editing.value["id"])
  }

  /** The request that saves the draft. An edited record with a truthy id is PUT to
      its own URL with the draft unchanged; anything else is POSTed to the
      collection with `id` removed and every other member kept. */
  function SaveRequest(editing: Option<Draft>, origin: string): (r: Request)
    ensures r.verb == Put <==> IsUpdate(editing)
    ensures r.verb == Put ==>
      r.url == origin + "/api/employees/" + JsString(editing.value["id"]) && r.payload == editing.value
    ensures r.verb == Post ==> r.url == origin + "/api/employees" && "id" !in r.payload
    ensures r.verb == Post ==> forall k :: k != "id" ==>
      (k in r.payload <==> editing.Some? && k in editing.value)
      && (k in r.payload ==> r.payload[k] == editing.value[k])
  {
    if IsUpdate(editing) then
      Request(Put, origin + "/api/employees/" + JsString(editing.value["id"]), editing.value)
    else
      var payload := if editing.Some? then editing.value else map[];
      Request(Post, origin + "/api/employees", payload - {"id"})
  }

  /** Different numeric ids are PUT to different URLs. */
  lemma UpdateUrlsDistinct(a: Draft, b: Draft, origin: string)
    requires IsUpdate(Some(a)) && IsUpdate(Some(b))
    requires a["id"].JNum? && b["id"].JNum? && a["id"] != b["id"]
    ensures SaveRequest(Some(a), origin).url != SaveRequest(Some(b), origin).url
  {
    var prefix := origin + "/api/employees/";
    var ua, ub := SaveRequest(Some(a), origin).url, SaveRequest(Some(b), origin).url;
    assert ua == prefix + JsString(a["id"]) && ub == prefix + JsString(b["id"]);
    assert ua[|prefix|..] == JsString(a["id"]) && ub[|prefix|..] == JsString(b["id"]);
  }

  /** Opening a fetched row for editing and saving it unchanged PUTs it to its own
      id, and the server writes back exactly the row it had. */
  lemma EditWithoutChangesRewritesSameRecord(e: Employee, origin: string)
    requires Stored(e) && e.id >= 1
    ensures var r := SaveRequest(Some(ToJson(e)), origin);
            && r.verb == Put
            && r.url == origin + "/api/employees/" + IntText(e.id)
            && Normalised(BodyOf(r.payload), e.id, e.createdAt) == e
  {
    ToJsonId(e);
    NormalisedRoundTrip(e);
  }

  /** Saving the empty form that "Tambah Pegawai" opens POSTs an empty payload,
      which the server refuses for lacking nip and name. */
  lemma EmptyFormIsRefused(origin: string)
    ensures var r := SaveRequest(Some(map[]), origin);
            r.verb == Post && r.payload == map[] && !HasRequiredFields(BodyOf(r.payload))
  {
  }

  // ---------------------------------------------------------------------------
  // handleSave: the message of a failed save

  const ConnectionMessage: string := "Terjadi kesalahan koneksi ke server"
  const SaveFailedPrefix: string := "Gagal menyimpan: "

  /** How a message value is shown: objects, arrays and `null` by their JSON text,
      anything else by `String(v)`. */
  function Shown(v: Json, stringify: Json -> string): string {
    if IsObjectType(v) then stringify(v) else JsString(v)
  }

  /** The message of a reply that is not ok, given its status and its parsed body
      (none when the body is not JSON). A truthy `error` member comes first, then a
      truthy `message` member, then the whole body as JSON; a body that cannot be
      read, or whose members cannot be read because it is `null`, gives the
      unreadable-reply message with the status code. `stringify` is `JSON.stringify`. */
  function SaveErrorMessage(status: int, parsed: Option<Json>, stringify: Json -> string): (m: string)
    ensures parsed.None? || parsed == Some(JNull) ==>
      m == "Server Error (" + IntText(status) + "): Tidak dapat membaca respon server"
    ensures parsed.Some? && parsed.value != JNull && TruthyProperty(parsed.value, "error") ==>
      m == Shown(parsed.value.fields["error"], stringify)
    ensures parsed.Some? && parsed.value != JNull && !TruthyProperty(parsed.value, "error") ==>
      (TruthyProperty(parsed.value, "message") ==> m == Shown(parsed.value.fields["message"], stringify))
      && (!TruthyProperty(parsed.value, "message") ==> m == stringify(parsed.value))
  {
    if parsed.None? || parsed.value.JNull? then
      "Server Error (" + JsString(JNum(status)) + "): Tidak dapat membaca respon server"
    else if TruthyProperty(parsed.value, "error") then
      Shown(Property(parsed.value, "error").value, stringify)
    else if TruthyProperty(parsed.value, "message") then
      Shown(Property(parsed.value, "message").value, stringify)
    else
      stringify(parsed.value)
  }

  /** Every refusal the server sends carries its message in `error`, so the
      dashboard shows that message as it is. */
  lemma ServerErrorShownVerbatim(status: int, message: string, stringify: Json -> string)
    requires message != ""
    ensures SaveErrorMessage(status, Some(BodyJson(ErrorBody(message))), stringify) == message
  {
  }

  /** The server's four refusal messages are all shown verbatim. */
  lemma RefusalsShownVerbatim(status: int, stringify: Json -> string)
    ensures SaveErrorMessage(status, Some(BodyJson(ErrorBody(RequiredMessage))), stringify) == RequiredMessage
    ensures SaveErrorMessage(status, Some(BodyJson(ErrorBody(UniqueNipMessage))), stringify) == UniqueNipMessage
    ensures SaveErrorMessage(status, Some(BodyJson(ErrorBody(UpdateNotFoundMessage))), stringify) == UpdateNotFoundMessage
    ensures SaveErrorMessage(status, Some(BodyJson(ErrorBody(NotFoundMessage))), stringify) == NotFoundMessage
  {
    ServerErrorShownVerbatim(status, RequiredMessage, stringify);
    ServerErrorShownVerbatim(status, UniqueNipMessage, stringify);
    ServerErrorShownVerbatim(status, UpdateNotFoundMessage, stringify);
    ServerErrorShownVerbatim(status, NotFoundMessage, stringify);
  }

  /** `res.ok`: a 2xx status. */
  predicate Ok(status: int) {
    200 <= status <= 299
  }

  /** What the save request met: a reply, with its body parsed as JSON when it could
      be, or a rejected `fetch`. */
  datatype SaveOutcome = Answered(status: int, body: Option<Json>) | ConnectionFailed

  // ---------------------------------------------------------------------------
  // handleFileUpload

  /** The client-side ceiling on an upload, in bytes. */
  const ClientUploadLimit: nat := 5 * 1024 * 1024

  const TooLargeMessage: string := "Ukuran file terlalu besar. Maksimal 5MB."
  const UploadFailedPrefix: string := "Gagal mengunggah: "
  const UploadFailedDefault: string := "Gagal mengunggah file"

  /** What the upload request met: a reply with its parsed body, or an exception
      with its message (a rejected `fetch`, a body that is not JSON). */
  datatype UploadOutcome = Responded(status: int, body: Json) | Threw(message: string)

  /** What an upload does to the form: store a path in the field, report a
      failure with a message, or nothing. */
  datatype UploadEffect = Merge(path: Json) | Fail(message: string) | NoEffect

  /** The effect of an upload's outcome. A reply that is not ok fails with its
      truthy `error` member, or a default message; an ok reply with a truthy `path`
      stores it; reading a member of a `null` body raises the engine's TypeError,
      whose message is `nullReadMessage`. */
  function UploadEffectOf(outcome: UploadOutcome, nullReadMessage: string): (r: UploadEffect)
    ensures outcome.Threw? ==> r == Fail(outcome.message)
    ensures outcome.Responded? && outcome.body == JNull ==> r == Fail(nullReadMessage)
    ensures outcome.Responded? && outcome.body != JNull && !Ok(outcome.status) ==>
      r == Fail(if TruthyProperty(outcome.body, "error") then JsString(outcome.body.fields["error"])
                else UploadFailedDefault)
    ensures outcome.Responded? && outcome.body != JNull && Ok(outcome.status) ==>
      (r.Merge? <==> TruthyProperty(outcome.body, "path"))
      && (r.Merge? ==> r.path == outcome.body.fields["path"])
      && (!r.Merge? ==> r == NoEffect)
  {
    match outcome
    case Threw(m) => Fail(m)
    case Responded(status, body) =>
      if body.JNull? then Fail(nullReadMessage)
      else if !Ok(status) then
        Fail(if TruthyProperty(body, "error") then JsString(Property(body, "error").value) else UploadFailedDefault)
      else if TruthyProperty(body, "path") then Merge(Property(body, "path").value)
      else NoEffect
  }

  /** The server's upload replies as the dashboard reads them: a stored file's path
      goes into the field, a request without a file fails with the server's
      message. */
  lemma ServerUploadEffects(storedName: Option<string>, nullReadMessage: string)
    ensures var reply := UploadReply(storedName);
            var effect := UploadEffectOf(Responded(reply.status, BodyJson(reply.body)), nullReadMessage);
            && (storedName.Some? ==> effect == Merge(JStr("/uploads/" + storedName.value)))
            && (storedName.None? ==> effect == Fail(NoFileMessage))
  {
  }

  /** `{ ...prev, [key]: value }`, as both the typing handler and the upload handler
      write it: the draft with the member set to the value and every other member as
      it was (none when no record was being edited). */
  function WithMember(editing: Option<Draft>, key: string, value: Json): (d: Draft)
    ensures key in d && d[key] == value
    ensures forall k :: k != key ==>
      (k in d <==> editing.Some? && k in editing.value)
      && (k in d ==> d[k] == editing.value[k])
  {
    var prev := if editing.Some? then editing.value else map[];
    prev[key := value]
  }

  /** A path uploaded into a document field of a record being edited reaches the
      server with the save, which stores it; every other field is written as the
      draft had it. */
  lemma UploadedPathIsStored(d: Draft, field: string, path: string, id: int, createdAt: string)
    requires field in DocumentFields && path != ""
    ensures var body := BodyOf(WithMember(Some(d), field, JStr(path)));
            DocumentPath(Normalised(body, id, createdAt), field) == Some(path)
  {
    var body := BodyOf(WithMember(Some(d), field, JStr(path)));
    assert Given(body, field);
  }

  // ---------------------------------------------------------------------------
  // The form's state

  /** The dashboard state the employee form works on: the section shown, the
      record being edited, whether the form is open, whether a save is running,
      and the document field being uploaded. */
  class Editor {
    var formSection: Section
    var editing: Option<Draft>
    var isModalOpen: bool
    var isSaving: bool
    var uploading: Option<string>

    /** The state at first render: the form closed on its first section, nothing
        being edited, saved or uploaded. */
    constructor ()
      ensures formSection == Personal && editing.None? && !isModalOpen && !isSaving && uploading.None?
    {
      formSection := Personal;
      editing := None;
      isModalOpen := false;
      isSaving := false;
      uploading := None;
    }

    /** "Tambah Pegawai": an empty draft, on the first section, form open. */
    method OpenForCreate()
      modifies this
      ensures editing == Some(map[]) && formSection == Personal && isModalOpen
      ensures isSaving == old(isSaving) && uploading == old(uploading)
    {
      editing := Some(map[]);
      formSection := Personal;
      isModalOpen := true;
    }

    /** The edit button of a row: the fetched row as the draft, on the first
        section, form open. */
    method OpenForEdit(e: Employee)
      modifies this
      ensures editing == Some(ToJson(e)) && formSection == Personal && isModalOpen
      ensures isSaving == old(isSaving) && uploading == old(uploading)
    {
      editing := Some(ToJson(e));
      formSection := Personal;
      isModalOpen := true;
    }

    /** The backdrop or the cancel button: the form closes and keeps its draft. */
    method Close()
      modifies this
      ensures !isModalOpen
      ensures editing == old(editing) && formSection == old(formSection)
      ensures isSaving == old(isSaving) && uploading == old(uploading)
    {
      isModalOpen := false;
    }

    /** An input of the form: `{ ...editingEmployee, [key]: value }`. */
    method EditField(key: string, value: string)
      modifies this
      ensures editing == Some(WithMember(old(editing), key, JStr(value)))
      ensures formSection == old(formSection) && isModalOpen == old(isModalOpen)
      ensures isSaving == old(isSaving) && uploading == old(uploading)
    {
      editing := Some(WithMember(editing, key, JStr(value)));
    }

    /** A section of the form's side menu. */
    method SelectSection(s: Section)
      modifies this
      ensures formSection == s
      ensures editing == old(editing) && isModalOpen == old(isModalOpen)
      ensures isSaving == old(isSaving) && uploading == old(uploading)
    {
      formSection := s;
    }

    /** "Selanjutnya". Both tests read the section of the render the click came
        from; the second does not see the first one's update. */
    method Next()
      modifies this
      ensures formSection == NextSection(old(formSection))
      ensures editing == old(editing) && isModalOpen == old(isModalOpen)
      ensures isSaving == old(isSaving) && uploading == old(uploading)
    {
      var shown := formSection;
      if shown == Personal {
        formSection := Employment;
      }
      if shown == Employment {
        formSection := Documents;
      }
    }

    /** "Sebelumnya", read the same way. */
    method Prev()
      modifies this
      ensures formSection == PrevSection(old(formSection))
      ensures editing == old(editing) && isModalOpen == old(isModalOpen)
      ensures isSaving == old(isSaving) && uploading == old(uploading)
    {
      var shown := formSection;
      if shown == Employment {
        formSection := Personal;
      }
      if shown == Documents {
        formSection := Employment;
      }
    }

    /** The file input of a document field, given the chosen file's size (none when
        nothing was chosen) and what the upload request met. No file does nothing; a
        file over the client ceiling is refused before any request; otherwise the
        request is made, its effect applied, and the field is no longer marked as
        uploading. Returns whether the request was made and the alert shown. */
    method UploadDocument(file: Option<nat>, field: string, outcome: UploadOutcome, nullReadMessage: string)
      returns (requested: bool, alert: Option<string>)
      modifies this
      ensures requested <==> file.Some? && file.value <= ClientUploadLimit
      ensures file.None? ==> alert.None? && unchanged(this)
      ensures file.Some? && file.value > ClientUploadLimit ==> alert == Some(TooLargeMessage) && unchanged(this)
      ensures requested ==> uploading.None?
      ensures requested ==> var effect := UploadEffectOf(outcome, nullReadMessage);
        && (effect.Merge? ==> editing == Some(WithMember(old(editing), field, effect.path)) && alert.None?)
        && (effect.Fail? ==> editing == old(editing) && alert == Some(UploadFailedPrefix + effect.message))
        && (effect.NoEffect? ==> editing == old(editing) && alert.None?)
      ensures formSection == old(formSection) && isModalOpen == old(isModalOpen) && isSaving == old(isSaving)
    {
      if file.None? {
        return false, None;
      }
      if file.value > ClientUploadLimit {
        return false, Some(TooLargeMessage);
      }
      uploading := Some(field);
      requested := true;
      alert := None;
      var effect := UploadEffectOf(outcome, nullReadMessage);
      match effect {
        case Merge(path) =>
          editing := Some(WithMember(editing, field, path));
        case Fail(message) =>
          alert := Some(UploadFailedPrefix + message);
        case NoEffect =>
      }
      uploading := None;
    }

    /** The form's submit, given the page origin, what the request met and
        `JSON.stringify`. The request is SaveRequest of the draft. An ok reply
        closes the form and drops the draft; a reply that is not ok shows
        SaveErrorMessage and a failed connection the connection message, both
        keeping the form as it was. The save is no longer running afterwards.
        Returns the request and the alert shown. */
    method Save(origin: string, outcome: SaveOutcome, stringify: Json -> string)
      returns (request: Request, alert: Option<string>)
      modifies this
      ensures request == SaveRequest(old(editing), origin)
      ensures !isSaving
      ensures formSection == old(formSection) && uploading == old(uploading)
      ensures outcome.Answered? && Ok(outcome.status) ==> !isModalOpen && editing.None? && alert.None?
      ensures outcome.Answered? && !Ok(outcome.status) ==>
        && isModalOpen == old(isModalOpen) && editing == old(editing)
        && alert == Some(SaveFailedPrefix + SaveErrorMessage(outcome.status, outcome.body, stringify))
      ensures outcome.ConnectionFailed? ==>
        isModalOpen == old(isModalOpen) && editing == old(editing) && alert == Some(ConnectionMessage)
    {
      isSaving := true;
      request := SaveRequest(editing, origin);
      alert := None;
      match outcome {
        case Answered(status, body) =>
          if Ok(status) {
            isModalOpen := false;
            editing := None;
          } else {
            alert := Some(SaveFailedPrefix + SaveErrorMessage(status, body, stringify));
          }
        case ConnectionFailed =>
          alert := Some(ConnectionMessage);
      }
      isSaving := false;
    }
  }
}
