/** The record shapes shared by the server and the dashboard: the employee record
    with its status enumeration and optional document paths, and the statistics
    summary. */
module EmployeeTypes {
  import opened JsValues

  /** The five employment statuses the record type declares. */
  datatype Status = Asn | CalonPns | P3kPenuhWaktu | P3kParuhWaktu | Aktif

  /** The literal each status is written as. */
  function StatusText(s: Status): string {
    match s
    case Asn => "ASN"
    case CalonPns => "Calon PNS"
    case P3kPenuhWaktu => "P3K Penuh Waktu"
    case P3kParuhWaktu => "P3K Paruh Waktu"
    case Aktif => "Aktif"
  }

  /** The declared status a text stands for, if any: the inverse of StatusText. */
  function ParseStatus(t: string): (r: Option<Status>)
    ensures r.Some? ==> StatusText(r.value) == t
    ensures r.None? ==> forall s: Status :: StatusText(s) != t
  {
    if t == "ASN" then Some(Asn)
    else if t == "Calon PNS" then Some(CalonPns)
    else if t == "P3K Penuh Waktu" then Some(P3kPenuhWaktu)
    else if t == "P3K Paruh Waktu" then Some(P3kParuhWaktu)
    else if t == "Aktif" then Some(Aktif)
    else None
  }

  /** Parsing a status's literal gives the status back. */
  lemma StatusRoundTrip(s: Status)
    ensures ParseStatus(StatusText(s)) == Some(s)
  {
  }

  /** An employee record. The status is kept as text, because nothing that stores
      a record checks it against the five declared literals; the four document paths
      are optional; every other field is a string. */
  datatype Employee = Employee(
    id: int,
    nip: string,
    name: string,
    position: string,
    rank: string,
    unit: string,
    phone: string,
    email: string,
    address: string,
    status: string,
    ktpPath: Option<string>,
    skPangkatPath: Option<string>,
    skBerkalaPath: Option<string>,
    skJabatanPath: Option<string>,
    createdAt: string)

  /** The record's status is one of the declared literals. */
  predicate HasDeclaredStatus(e: Employee) {
    ParseStatus(e.status).Some?
  }

  /** One group of a statistics query: a label and how many records carry it. */
  datatype StatEntry = StatEntry(name: string, value: int)

  /** Counts per unit, counts per rank, and the number of records. */
  datatype Stats = Stats(unitStats: seq<StatEntry>, rankStats: seq<StatEntry>, total: int)

  /** The six free-text fields besides nip and name, by their JSON names. */
  const TextFields: set<string> := {"position", "rank", "unit", "phone", "email", "address"}

  /** The four document-path fields, by their JSON names. */
  const DocumentFields: set<string> := {"ktp_path", "sk_pangkat_path", "sk_berkala_path", "sk_jabatan_path"}

  /** The value of a free-text field, by its JSON name (nip and name included). */
  function TextField(e: Employee, key: string): string {
    if key == "nip" then e.nip
    else if key == "name" then e.name
    else if key == "position" then e.position
    else if key == "rank" then e.rank
    else if key == "unit" then e.unit
    else if key == "phone" then e.phone
    else if key == "email" then e.email
    else if key == "address" then e.address
    else if key == "status" then e.status
    else if key == "created_at" then e.createdAt
    else ""
  }

  /** The value of a document-path field, by its JSON name. */
  function DocumentPath(e: Employee, key: string): Option<string> {
    if key == "ktp_path" then e.ktpPath
    else if key == "sk_pangkat_path" then e.skPangkatPath
    else if key == "sk_berkala_path" then e.skBerkalaPath
    else if key == "sk_jabatan_path" then e.skJabatanPath
    else None
  }

  function PathJson(p: Option<string>): Json {
    if p.Some? then JStr(p.value) else JNull
  }

  /** Every key of a record's JSON object. */
  const RecordKeys: set<string> := {"id", "nip", "name", "position", "rank", "unit", "phone",
    "email", "address", "status", "ktp_path", "sk_pangkat_path", "sk_berkala_path",
    "sk_jabatan_path", "created_at"}

  /** The JSON value of one field: the numeric `id`, a document path as a string or
      `null`, any other field as a string. */
  function FieldJson(e: Employee, key: string): Json {
    if key == "id" then JNum(e.id)
    else if key in DocumentFields then PathJson(DocumentPath(e, key))
    else JStr(TextField(e, key))
  }

  /** The JSON object a record is sent as. */
  function ToJson(e: Employee): (r: map<string, Json>)
    ensures forall k :: k in r <==> k in RecordKeys
  {
    map k | k in RecordKeys :: FieldJson(e, k)
  }

  /** A record's JSON object carries the numeric id under `id`. */
  lemma ToJsonId(e: Employee)
    ensures "id" in ToJson(e) && ToJson(e)["id"] == JNum(e.id)
  {
  }

  /** A record's JSON object carries every field other than the id and the
      document paths as a string. */
  lemma ToJsonText(e: Employee)
    ensures forall k :: k in RecordKeys && k != "id" && k !in DocumentFields ==> ToJson(e)[k] == JStr(TextField(e, k))
  {
  }

  /** A record's JSON object carries each document path as a string, or `null`. */
  lemma ToJsonDocuments(e: Employee)
    ensures forall k :: k in DocumentFields ==> k in ToJson(e) && ToJson(e)[k] == PathJson(DocumentPath(e, k))
  {
  }

  function EntryJson(g: StatEntry): Json {
    JObj(map["name" := JStr(g.name), "value" := JNum(g.value)])
  }

  /** The JSON object a statistics summary is sent as. */
  function StatsJson(st: Stats): Json {
    JObj(map[
      "unitStats" := JArr(seq(|st.unitStats|, i requires 0 <= i < |st.unitStats| => EntryJson(st.unitStats[i]))),
      "rankStats" := JArr(seq(|st.rankStats|, i requires 0 <= i < |st.rankStats| => EntryJson(st.rankStats[i]))),
      "total" := JNum(st.total)
    ])
  }
}
