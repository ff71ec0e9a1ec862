/** The server's employee record store: one table of employee rows keyed by an
    auto-incremented id with a unique nip, and the request handlers that read and
    change it, including how each handler fills in fields the request leaves out. */
module RecordStore {
  import opened JsValues
  import opened EmployeeTypes

  // ---------------------------------------------------------------------------
  // Request bodies and the default rules

  /** The string members of a request's JSON body. A member that is missing or
      `null` is absent from the map. */
  type Body = map<string, string>

  /** The destructured view of a parsed JSON object: its string members. */
  function BodyOf(obj: map<string, Json>): (b: Body)
    ensures forall k :: k in b <==> k in obj && obj[k].JStr?
    ensures forall k :: k in b ==> obj[k] == JStr(b[k])
  {
    map k | k in obj && obj[k].JStr? :: obj[k].s
  }

  /** The member is truthy: present and not the empty string. */
  predicate Given(body: Body, key: string) {
    key in body && body[key] != ""
  }

  /** `body[key] || ''` */
  function OrEmpty(body: Body, key: string): string {
    if Given(body, key) then body[key] else ""
  }

  /** `body[key] || null` */
  function OrNull(body: Body, key: string): Option<string> {
    if Given(body, key) then Some(body[key]) else None
  }

  const DefaultStatus: string := "ASN"

  /** `status || 'ASN'` */
  function StatusOrDefault(body: Body): string {
    if Given(body, "status") then body["status"] else DefaultStatus
  }

  /** The test `!nip || !name` fails: both required members are truthy. */
  predicate HasRequiredFields(body: Body) {
    Given(body, "nip") && Given(body, "name")
  }

  function NonEmptyPath(p: Option<string>): bool {
    p.None? || p.value != ""
  }

  /** What every stored row satisfies: a non-empty nip, name and status, and
      document paths that are either null or non-empty. */
  predicate Stored(e: Employee) {
    e.nip != "" && e.name != "" && e.status != ""
    && NonEmptyPath(e.ktpPath) && NonEmptyPath(e.skPangkatPath)
    && NonEmptyPath(e.skBerkalaPath) && NonEmptyPath(e.skJabatanPath)
  }

  /** The row that an INSERT or UPDATE writes for `body`. nip and name are passed
      through as they are (only a body with both truthy gets this far); the other
      text fields fall back to `''`, the status to `'ASN'` and the document paths
      to null. Nothing of any earlier row takes part. */
  function Normalised(body: Body, id: int, createdAt: string): (r: Employee)
    ensures r.id == id && r.createdAt == createdAt
    ensures HasRequiredFields(body) ==> r.nip == body["nip"] && r.name == body["name"] && Stored(r)
    ensures forall k :: k in TextFields ==> TextField(r, k) == if Given(body, k) then body[k] else ""
    ensures r.status == if Given(body, "status") then body["status"] else DefaultStatus
    ensures forall k :: k in DocumentFields ==> DocumentPath(r, k) == if Given(body, k) then Some(body[k]) else None
  {
    Employee(
      id,
      OrEmpty(body, "nip"),
      OrEmpty(body, "name"),
      OrEmpty(body, "position"),
      OrEmpty(body, "rank"),
      OrEmpty(body, "unit"),
      OrEmpty(body, "phone"),
      OrEmpty(body, "email"),
      OrEmpty(body, "address"),
      StatusOrDefault(body),
      OrNull(body, "ktp_path"),
      OrNull(body, "sk_pangkat_path"),
      OrNull(body, "sk_berkala_path"),
      OrNull(body, "sk_jabatan_path"),
      createdAt)
  }

  /** Sending a stored row back as it was fetched writes the same row again: the
      default rules change nothing in a row they produced. */
  lemma NormalisedRoundTrip(e: Employee)
    requires Stored(e)
    ensures Normalised(BodyOf(ToJson(e)), e.id, e.createdAt) == e
  {
    RoundTripIdentity(e);
    RoundTripEmployment(e);
    RoundTripPlacement(e);
    RoundTripContact(e);
    RoundTripAddress(e);
    RoundTripIdentityDocuments(e);
    RoundTripDecreeDocuments(e);
  }

  lemma RoundTripIdentity(e: Employee)
    requires Stored(e)
    ensures var b := BodyOf(ToJson(e));
            OrEmpty(b, "nip") == e.nip && OrEmpty(b, "name") == e.name
  {
    KeptText(e, "nip");
    KeptText(e, "name");
  }

  lemma RoundTripEmployment(e: Employee)
    ensures var b := BodyOf(ToJson(e));
            OrEmpty(b, "position") == e.position && OrEmpty(b, "rank") == e.rank
  {
    KeptText(e, "position");
    KeptText(e, "rank");
  }

  lemma RoundTripPlacement(e: Employee)
    requires Stored(e)
    ensures var b := BodyOf(ToJson(e));
            OrEmpty(b, "unit") == e.unit && StatusOrDefault(b) == e.status
  {
    KeptText(e, "unit");
    KeptText(e, "status");
  }

  lemma RoundTripContact(e: Employee)
    ensures var b := BodyOf(ToJson(e));
            OrEmpty(b, "phone") == e.phone && OrEmpty(b, "email") == e.email
  {
    KeptText(e, "phone");
    KeptText(e, "email");
  }

  lemma RoundTripAddress(e: Employee)
    ensures OrEmpty(BodyOf(ToJson(e)), "address") == e.address
  {
    KeptText(e, "address");
  }

  lemma RoundTripIdentityDocuments(e: Employee)
    requires Stored(e)
    ensures var b := BodyOf(ToJson(e));
            OrNull(b, "ktp_path") == e.ktpPath && OrNull(b, "sk_pangkat_path") == e.skPangkatPath
  {
    KeptPath(e, "ktp_path");
    KeptPath(e, "sk_pangkat_path");
  }

  lemma RoundTripDecreeDocuments(e: Employee)
    requires Stored(e)
    ensures var b := BodyOf(ToJson(e));
            OrNull(b, "sk_berkala_path") == e.skBerkalaPath && OrNull(b, "sk_jabatan_path") == e.skJabatanPath
  {
    KeptPath(e, "sk_berkala_path");
    KeptPath(e, "sk_jabatan_path");
  }

  /** A text field of a fetched record reaches the server's body unchanged. */
  lemma KeptText(e: Employee, k: string)
    requires k in RecordKeys && k != "id" && k !in DocumentFields
    ensures OrEmpty(BodyOf(ToJson(e)), k) == TextField(e, k)
  {
  }

  /** A document path of a fetched record that is not null reaches the server's
      body unchanged; a null one is absent from it. */
  lemma KeptPath(e: Employee, k: string)
    requires k in DocumentFields && NonEmptyPath(DocumentPath(e, k))
    ensures OrNull(BodyOf(ToJson(e)), k) == DocumentPath(e, k)
  {
  }

  /** A body that leaves a field out resets it: omitted text fields read back as
      `''`, an omitted status as `'ASN'`, omitted document paths as null. */
  lemma OmittedFieldsReset(body: Body, id: int, createdAt: string, k: string)
    requires k !in body
    ensures k in TextFields ==> TextField(Normalised(body, id, createdAt), k) == ""
    ensures k == "status" ==> Normalised(body, id, createdAt).status == DefaultStatus
    ensures k in DocumentFields ==> DocumentPath(Normalised(body, id, createdAt), k).None?
  {
  }

  /** The store keeps any status text: a body whose status is none of the five
      declared literals is stored with that status. */
  lemma UndeclaredStatusIsStored()
    ensures var e := Normalised(map["nip" := "1", "name" := "A", "status" := "Pensiun"], 1, "");
            Stored(e) && !HasDeclaredStatus(e)
  {
  }

  // ---------------------------------------------------------------------------
  // Order of the listing: `ORDER BY name ASC` under byte-wise collation

  /** `a` sorts before or equal to `b`, character by character. */
  predicate NameLeq(a: string, b: string)
    decreases |a|
  {
    if a == [] then true
    else if b == [] then false
    else if a[0] != b[0] then a[0] < b[0]
    else NameLeq(a[1..], b[1..])
  }

  lemma {:induction false} NameLeqTotal(a: string, b: string)
    ensures NameLeq(a, b) || NameLeq(b, a)
    decreases |a|
  {
    if a != [] && b != [] && a[0] == b[0] {
      NameLeqTotal(a[1..], b[1..]);
    }
  }

  lemma {:induction false} NameLeqTransitive(a: string, b: string, c: string)
    requires NameLeq(a, b) && NameLeq(b, c)
    ensures NameLeq(a, c)
    decreases |a|
  {
    if a != [] && b != [] && c != [] && a[0] == b[0] == c[0] {
      NameLeqTransitive(a[1..], b[1..], c[1..]);
    }
  }

  predicate SortedByName(s: seq<Employee>) {
    forall i, j :: 0 <= i < j < |s| ==> NameLeq(s[i].name, s[j].name)
  }

  /** Puts `x` into a sorted sequence, after every earlier name it does not precede. */
  function InsertByName(x: Employee, s: seq<Employee>): (r: seq<Employee>)
    requires SortedByName(s)
    ensures SortedByName(r)
    ensures multiset(r) == multiset(s) + multiset{x}
    decreases |s|
  {
    if s == [] then [x]
    else if NameLeq(x.name, s[0].name) then
      InsertAtFront(x, s);
      [x] + s
    else
      SortedTail(s);
      var rest := InsertByName(x, s[1..]);
      InsertBehindFront(x, s, rest);
      [s[0]] + rest
  }

  lemma SortedTail(s: seq<Employee>)
    requires SortedByName(s) && s != []
    ensures SortedByName(s[1..])
  {
  }

  /** `x` goes behind the first element it does not precede. */
  lemma InsertBehindFront(x: Employee, s: seq<Employee>, rest: seq<Employee>)
    requires SortedByName(s) && s != [] && !NameLeq(x.name, s[0].name)
    requires SortedByName(rest) && multiset(rest) == multiset(s[1..]) + multiset{x}
    ensures SortedByName([s[0]] + rest)
    ensures multiset([s[0]] + rest) == multiset(s) + multiset{x}
  {
    NameLeqTotal(x.name, s[0].name);
    assert s == [s[0]] + s[1..];
    FrontBeforeAll(s[0], rest, multiset(s[1..]) + multiset{x});
  }

  lemma InsertAtFront(x: Employee, s: seq<Employee>)
    requires SortedByName(s) && s != [] && NameLeq(x.name, s[0].name)
    ensures SortedByName([x] + s)
  {
    forall j | 0 <= j < |s| ensures NameLeq(x.name, s[j].name) {
      if j > 0 {
        NameLeqTransitive(x.name, s[0].name, s[j].name);
      }
    }
  }

  /** `h` goes in front of a sorted `rest` whose elements all come from a multiset
      that `h` precedes. */
  lemma FrontBeforeAll(h: Employee, rest: seq<Employee>, m: multiset<Employee>)
    requires SortedByName(rest) && multiset(rest) == m
    requires forall e :: e in m ==> NameLeq(h.name, e.name)
    ensures SortedByName([h] + rest)
  {
    forall j | 0 <= j < |rest| ensures NameLeq(h.name, rest[j].name) {
      assert rest[j] in multiset(rest);
    }
  }

  /** The sequence sorted by name: a permutation of it in which names never descend. */
  function SortByName(s: seq<Employee>): (r: seq<Employee>)
    ensures SortedByName(r)
    ensures multiset(r) == multiset(s)
    decreases |s|
  {
    if s == [] then []
    else
      assert s == [s[0]] + s[1..];
      InsertByName(s[0], SortByName(s[1..]))
  }

  // ---------------------------------------------------------------------------
  // Scanning the table in id order

  /** The ids of `keys` in increasing order, each once. */
  function IdsInRange(keys: set<int>, lo: int, hi: int): (r: seq<int>)
    requires forall k :: k in keys ==> lo <= k < hi
    ensures |r| == |keys|
    ensures forall i, j :: 0 <= i < j < |r| ==> r[i] < r[j]
    ensures forall k :: k in r <==> k in keys
    decreases hi - lo
  {
    if keys == {} then []
    else if lo in keys then
      var rest := IdsInRange(keys - {lo}, lo + 1, hi);
      assert forall i :: 0 <= i < |rest| ==> lo < rest[i] by {
        forall i | 0 <= i < |rest| ensures lo < rest[i] {
          assert rest[i] in rest;
        }
      }
      [lo] + rest
    else IdsInRange(keys, lo + 1, hi)
  }

  /** The rows of `m`, a table whose rows are filed under their own ids below `hi`,
      in increasing id order: each row once. */
  function InIdOrder(m: map<int, Employee>, hi: int): (r: seq<Employee>)
    requires forall k :: k in m ==> 1 <= k < hi && m[k].id == k
    ensures |r| == |m|
    ensures forall i :: 0 <= i < |r| ==> r[i].id in m && m[r[i].id] == r[i]
    ensures forall i, j :: 0 <= i < j < |r| ==> r[i].id < r[j].id
    ensures forall k :: k in m ==> m[k] in r
  {
    var ids := IdsInRange(m.Keys, 1, hi);
    assert forall i :: 0 <= i < |ids| ==> ids[i] in m by {
      forall i | 0 <= i < |ids| ensures ids[i] in m {
        assert ids[i] in ids;
      }
    }
    RowsAtCovers(m, ids);
    RowsAt(m, ids)
  }

  /** Looking up a sequence of ids that mentions every key finds every row. */
  lemma RowsAtCovers(m: map<int, Employee>, ids: seq<int>)
    requires forall i :: 0 <= i < |ids| ==> ids[i] in m
    requires forall k :: k in m ==> k in ids
    ensures forall k :: k in m ==> m[k] in RowsAt(m, ids)
  {
    var r := RowsAt(m, ids);
    forall k | k in m ensures m[k] in r {
      var i :| 0 <= i < |ids| && ids[i] == k;
      assert r[i] == m[k];
    }
  }

  function RowsAt(m: map<int, Employee>, ids: seq<int>): (r: seq<Employee>)
    requires forall i :: 0 <= i < |ids| ==> ids[i] in m
    ensures |r| == |ids|
    ensures forall i :: 0 <= i < |ids| ==> r[i] == m[ids[i]]
  {
    seq(|ids|, i requires 0 <= i < |ids| => m[ids[i]])
  }

  /** The rows InIdOrder lists are exactly the rows of the table. */
  lemma InIdOrderHoldsTheRows(m: map<int, Employee>, hi: int)
    requires forall k :: k in m ==> 1 <= k < hi && m[k].id == k
    ensures forall e :: e in InIdOrder(m, hi) <==> e in m.Values
  {
    var r := InIdOrder(m, hi);
    forall e ensures e in r <==> e in m.Values {
      if e in r {
        var i :| 0 <= i < |r| && r[i] == e;
        assert m[r[i].id] == e;
      }
      if e in m.Values {
        var k :| k in m && m[k] == e;
        assert m[k] in r;
      }
    }
  }

  /** Sorting keeps the length and the members. */
  lemma SortKeepsMembers(s: seq<Employee>)
    ensures |SortByName(s)| == |s|
    ensures forall e :: e in SortByName(s) <==> e in s
  {
    var sorted := SortByName(s);
    forall e ensures e in sorted <==> e in s {
      assert e in sorted <==> e in multiset(sorted);
      assert e in s <==> e in multiset(s);
    }
    assert |sorted| == |multiset(sorted)| == |multiset(s)| == |s|;
  }

  // ---------------------------------------------------------------------------
  // `GROUP BY` counts

  /** How many of the labels equal `x`. */
  function CountOf(labels: seq<string>, x: string): nat {
    if labels == [] then 0
    else CountOf(labels[..|labels| - 1], x) + (if labels[|labels| - 1] == x then 1 else 0)
  }

  function SumValues(g: seq<StatEntry>): int {
    if g == [] then 0 else g[0].value + SumValues(g[1..])
  }

  function Names(g: seq<StatEntry>): set<string> {
    if g == [] then {} else {g[0].name} + Names(g[1..])
  }

  /** No label names two groups. */
  predicate DistinctNames(g: seq<StatEntry>) {
    g == [] || (g[0].name !in Names(g[1..]) && DistinctNames(g[1..]))
  }

  /** The count of the group named `x`, 0 when there is none. */
  function Lookup(g: seq<StatEntry>, x: string): int {
    if g == [] then 0 else if g[0].name == x then g[0].value else Lookup(g[1..], x)
  }

  lemma {:induction false} LookupAbsent(g: seq<StatEntry>, x: string)
    requires x !in Names(g)
    ensures Lookup(g, x) == 0
  {
    if g != [] {
      LookupAbsent(g[1..], x);
    }
  }

  /** In a grouping with distinct labels, each group's count is the count of its label. */
  lemma {:induction false} LookupAt(g: seq<StatEntry>, i: int)
    requires DistinctNames(g) && 0 <= i < |g|
    ensures Lookup(g, g[i].name) == g[i].value
  {
    if i > 0 {
      LookupAt(g[1..], i - 1);
      assert g[i].name in Names(g[1..]) by { NameAt(g[1..], i - 1); }
    }
  }

  lemma {:induction false} NameAt(g: seq<StatEntry>, i: int)
    requires 0 <= i < |g|
    ensures g[i].name in Names(g)
  {
    if i > 0 {
      NameAt(g[1..], i - 1);
    }
  }

  /** Counts one more row with label `l`: the group named `l` grows by one, or a
      new group `(l, 1)` is appended. */
  function AddToGroup(g: seq<StatEntry>, l: string): (r: seq<StatEntry>)
    requires DistinctNames(g)
    ensures DistinctNames(r)
    ensures Names(r) == Names(g) + {l}
    ensures SumValues(r) == SumValues(g) + 1
    ensures forall x :: Lookup(r, x) == Lookup(g, x) + (if x == l then 1 else 0)
    decreases |g|
  {
    if g == [] then
      assert [StatEntry(l, 1)][1..] == [];
      [StatEntry(l, 1)]
    else if g[0].name == l then
      var r := [StatEntry(l, g[0].value + 1)] + g[1..];
      assert r[1..] == g[1..];
      LookupAbsent(g[1..], l);
      r
    else
      var r := [g[0]] + AddToGroup(g[1..], l);
      assert r[1..] == AddToGroup(g[1..], l);
      r
  }

  /** The `(label, count)` groups of a column: one group per distinct label, whose
      count is the number of rows carrying it; the counts add up to the number of
      rows. */
  function GroupBy(labels: seq<string>): (r: seq<StatEntry>)
    ensures DistinctNames(r)
    ensures forall x :: x in Names(r) <==> x in labels
    ensures forall x :: Lookup(r, x) == CountOf(labels, x)
    ensures SumValues(r) == |labels|
    decreases |labels|
  {
    if labels == [] then []
    else
      var prefix := labels[..|labels| - 1];
      assert labels == prefix + [labels[|labels| - 1]];
      AddToGroup(GroupBy(prefix), labels[|labels| - 1])
  }

  /** Every group of GroupBy counts its own label, and counts at least one row. */
  lemma GroupCounts(labels: seq<string>, i: int)
    requires 0 <= i < |GroupBy(labels)|
    ensures GroupBy(labels)[i].value == CountOf(labels, GroupBy(labels)[i].name) >= 1
  {
    var g := GroupBy(labels);
    LookupAt(g, i);
    NameAt(g, i);
    CountPositive(labels, g[i].name);
  }

  lemma {:induction false} CountPositive(labels: seq<string>, x: string)
    requires x in labels
    ensures CountOf(labels, x) >= 1
    decreases |labels|
  {
    var n := |labels|;
    if labels[n - 1] != x {
      assert labels == labels[..n - 1] + [labels[n - 1]];
      CountPositive(labels[..n - 1], x);
    }
  }

  function Units(s: seq<Employee>): (r: seq<string>)
    ensures |r| == |s|
  {
    seq(|s|, i requires 0 <= i < |s| => s[i].unit)
  }

  function Ranks(s: seq<Employee>): (r: seq<string>)
    ensures |r| == |s|
  {
    seq(|s|, i requires 0 <= i < |s| => s[i].rank)
  }

  // ---------------------------------------------------------------------------
  // Replies

  const RequiredMessage: string := "NIP dan Nama wajib diisi"
  const NotFoundMessage: string := "Employee not found"
  const UpdateNotFoundMessage: string := "Pegawai tidak ditemukan"
  /** The message the database engine raises when a second row would get a nip
      already in use. */
  const UniqueNipMessage: string := "UNIQUE constraint failed: employees.nip"
  const NoFileMessage: string := "No file uploaded"

  datatype ReplyBody =
    | ErrorBody(message: string)
    | CreatedBody(id: int)
    | SuccessBody
    | RecordBody(record: Employee)
    | ListBody(records: seq<Employee>)
    | StatsBody(stats: Stats)
    | PathBody(path: string)

  /** An HTTP status code and the JSON the handler sends. */
  datatype Reply = Reply(status: int, body: ReplyBody)

  /** The JSON each reply body is sent as: the list as an array, every other body
      as an object; only a refusal carries an `error` member, holding its message,
      and a creation carries the new `id`. */
  function BodyJson(b: ReplyBody): (r: Json)
    ensures r.JArr? <==> b.ListBody?
    ensures b.ListBody? ==> |r.items| == |b.records|
    ensures TruthyProperty(r, "error") <==> b.ErrorBody? && b.message != ""
    ensures b.ErrorBody? ==> Property(r, "error") == Some(JStr(b.message))
    ensures b.CreatedBody? ==> Property(r, "id") == Some(JNum(b.id))
  {
    match b
    case ErrorBody(m) => JObj(map["error" := JStr(m)])
    case CreatedBody(id) => JObj(map["id" := JNum(id)])
    case SuccessBody => JObj(map["success" := JBool(true)])
    case RecordBody(e) => JObj(ToJson(e))
    case ListBody(es) => JArr(seq(|es|, i requires 0 <= i < |es| => JObj(ToJson(es[i]))))
    case StatsBody(st) => StatsJson(st)
    case PathBody(p) => JObj(map["path" := JStr(p)])
  }

  /** The upload handler, given the name under which the file was stored (none
      when the request carried no file): the file's public path, or 400. */
  function UploadReply(storedName: Option<string>): (r: Reply)
    ensures r.status == 200 <==> storedName.Some?
    ensures storedName.Some? ==> r.body == PathBody("/uploads/" + storedName.value)
    ensures storedName.None? ==> r == Reply(400, ErrorBody(NoFileMessage))
  {
    if storedName.None? then Reply(400, ErrorBody(NoFileMessage))
    else Reply(200, PathBody("/uploads/" + storedName.value))
  }

  // ---------------------------------------------------------------------------
  // The table

  predicate NipInUse(rows: map<int, Employee>, nip: string) {
    exists k :: k in rows && rows[k].nip == nip
  }

  predicate NipInUseByOther(rows: map<int, Employee>, nip: string, id: int) {
    exists k :: k in rows && k != id && rows[k].nip == nip
  }

  /** No two rows share a nip. */
  predicate UniqueNips(rows: map<int, Employee>) {
    forall j, k :: j in rows && k in rows && j != k ==> rows[j].nip != rows[k].nip
  }

  /** Writing a row under `id` keeps nips unique when no other row holds its nip. */
  lemma WriteKeepsNipsUnique(rows: map<int, Employee>, id: int, row: Employee)
    requires UniqueNips(rows) && !NipInUseByOther(rows, row.nip, id)
    ensures UniqueNips(rows[id := row])
  {
    var r := rows[id := row];
    forall j, k | j in r && k in r && j != k ensures r[j].nip != r[k].nip {
      if j == id {
        assert r[k] == rows[k];
      } else if k == id {
        assert r[j] == rows[j];
      }
    }
  }

  /** The `employees` table: its rows by id and the AUTOINCREMENT counter, the id
      the next inserted row receives. */
  class EmployeeTable {
    var rows: map<int, Employee>
    var nextId: int
    /** Every id the table has ever handed out, deleted rows' included. */
    ghost var issued: set<int>

    /** Ids are positive and below the counter, each row is filed under its own id
        and is well formed, and nips are unique. */
    ghost predicate Valid()
      reads this
    {
      && 1 <= nextId
      && (forall k :: k in issued ==> 1 <= k < nextId)
      && rows.Keys <= issued
      && (forall k :: k in rows ==> rows[k].id == k && Stored(rows[k]))
      && UniqueNips(rows)
    }

    /** An empty table. */
    constructor ()
      ensures Valid()
      ensures rows == map[] && nextId == 1 && issued == {}
    {
      rows := map[];
      nextId := 1;
      issued := {};
    }

    /** The rows in id order: each row once. */
    function Scan(): seq<Employee>
      reads this
      requires Valid()
    {
      InIdOrder(rows, nextId)
    }

    /** GET /api/employees: every row, sorted by name ascending. */
    function List(): (r: Reply)
      reads this
      requires Valid()
      ensures r.status == 200 && r.body.ListBody?
      ensures SortedByName(r.body.records)
      ensures |r.body.records| == |rows|
      ensures forall e :: e in r.body.records <==> e in rows.Values
    {
      InIdOrderHoldsTheRows(rows, nextId);
      SortKeepsMembers(Scan());
      Reply(200, ListBody(SortByName(Scan())))
    }

    /** GET /api/employees/:id: the row with that id, or 404. */
    function Get(id: int): (r: Reply)
      reads this
      requires Valid()
      ensures r.status == 200 <==> id in rows
      ensures r.status == 200 ==> r.body.RecordBody? && r.body.record == rows[id] && r.body.record.id == id
      ensures r.status != 200 ==> r == Reply(404, ErrorBody(NotFoundMessage))
    {
      if id in rows then Reply(200, RecordBody(rows[id]))
      else Reply(404, ErrorBody(NotFoundMessage))
    }

    /** GET /api/stats: row counts per unit and per rank, and the row count. Each
        group's count is the number of rows with that label, no label repeats,
        and both groupings add up to the total. */
    function Summary(): (r: Reply)
      reads this
      requires Valid()
      ensures r.status == 200 && r.body.StatsBody?
      ensures r.body.stats.total == |rows|
      ensures SumValues(r.body.stats.unitStats) == |rows|
      ensures SumValues(r.body.stats.rankStats) == |rows|
      ensures DistinctNames(r.body.stats.unitStats) && DistinctNames(r.body.stats.rankStats)
      ensures forall u :: Lookup(r.body.stats.unitStats, u) == CountOf(Units(Scan()), u)
      ensures forall k :: Lookup(r.body.stats.rankStats, k) == CountOf(Ranks(Scan()), k)
      ensures forall u :: u in Names(r.body.stats.unitStats) <==> u in Units(Scan())
      ensures forall k :: k in Names(r.body.stats.rankStats) <==> k in Ranks(Scan())
      ensures forall k :: k in rows ==> rows[k].unit in Names(r.body.stats.unitStats)
      ensures forall k :: k in rows ==> rows[k].rank in Names(r.body.stats.rankStats)
    {
      var s := Scan();
      ScanCoversColumns();
      Reply(200, StatsBody(Stats(GroupBy(Units(s)), GroupBy(Ranks(s)), |s|)))
    }

    /** Every row's unit and rank occur in the scanned columns. */
    lemma ScanCoversColumns()
      requires Valid()
      ensures forall k :: k in rows ==> rows[k].unit in Units(Scan()) && rows[k].rank in Ranks(Scan())
    {
      var s := Scan();
      forall k | k in rows ensures rows[k].unit in Units(s) && rows[k].rank in Ranks(s) {
        var i :| 0 <= i < |s| && s[i] == rows[k];
        assert Units(s)[i] == rows[k].unit;
        assert Ranks(s)[i] == rows[k].rank;
      }
    }

    /** POST /api/employees. A body without a truthy nip and name is refused with
        400; a nip already in use is refused with the engine's 400; both leave the
        table as it was. Otherwise the normalised row is stored under the counter's
        id, which is larger than every id handed out before, and 201 carries it. */
    method Create(body: Body, createdAt: string) returns (reply: Reply)
      requires Valid()
      modifies this
      ensures Valid()
      ensures !HasRequiredFields(body) ==>
        reply == Reply(400, ErrorBody(RequiredMessage)) && unchanged(this)
      ensures HasRequiredFields(body) && NipInUse(old(rows), body["nip"]) ==>
        reply == Reply(400, ErrorBody(UniqueNipMessage)) && unchanged(this)
      ensures HasRequiredFields(body) && !NipInUse(old(rows), body["nip"]) ==>
        && reply == Reply(201, CreatedBody(old(nextId)))
        && rows == old(rows)[old(nextId) := Normalised(body, old(nextId), createdAt)]
        && nextId == old(nextId) + 1
        && issued == old(issued) + {old(nextId)}
      ensures reply.status == 201 ==>
        && reply.body.id !in old(rows)
        && (forall k :: k in old(issued) ==> k < reply.body.id)
        && Get(reply.body.id) == Reply(200, RecordBody(Normalised(body, reply.body.id, createdAt)))
    {
      if !HasRequiredFields(body) {
        return Reply(400, ErrorBody(RequiredMessage));
      }
      var row := Normalised(body, nextId, createdAt);
      if NipInUse(rows, row.nip) {
        return Reply(400, ErrorBody(UniqueNipMessage));
      }
      WriteKeepsNipsUnique(rows, nextId, row);
      rows := rows[nextId := row];
      issued := issued + {nextId};
      reply := Reply(201, CreatedBody(nextId));
      nextId := nextId + 1;
    }

    /** PUT /api/employees/:id, a full overwrite. A body without a truthy nip and
        name is refused with 400; an id with no row is 404 (no row changed); a nip
        held by another row is refused with the engine's 400. Otherwise the row
        becomes the normalised body, keeping only its id and creation time. The
        counter never moves. */
    method Update(id: int, body: Body) returns (reply: Reply)
      requires Valid()
      modifies this
      ensures Valid()
      ensures nextId == old(nextId) && issued == old(issued)
      ensures !HasRequiredFields(body) ==>
        reply == Reply(400, ErrorBody(RequiredMessage)) && unchanged(this)
      ensures HasRequiredFields(body) && id !in old(rows) ==>
        reply == Reply(404, ErrorBody(UpdateNotFoundMessage)) && unchanged(this)
      ensures HasRequiredFields(body) && id in old(rows) && NipInUseByOther(old(rows), body["nip"], id) ==>
        reply == Reply(400, ErrorBody(UniqueNipMessage)) && unchanged(this)
      ensures HasRequiredFields(body) && id in old(rows) && !NipInUseByOther(old(rows), body["nip"], id) ==>
        && reply == Reply(200, SuccessBody)
        && rows == old(rows)[id := Normalised(body, id, old(rows)[id].createdAt)]
      ensures reply.status == 200 ==>
        Get(id) == Reply(200, RecordBody(Normalised(body, id, old(rows)[id].createdAt)))
    {
      if !HasRequiredFields(body) {
        return Reply(400, ErrorBody(RequiredMessage));
      }
      if id !in rows {
        return Reply(404, ErrorBody(UpdateNotFoundMessage));
      }
      var row := Normalised(body, id, rows[id].createdAt);
      if NipInUseByOther(rows, row.nip, id) {
        return Reply(400, ErrorBody(UniqueNipMessage));
      }
      WriteKeepsNipsUnique(rows, id, row);
      rows := rows[id := row];
      reply := Reply(200, SuccessBody);
    }

    /** DELETE /api/employees/:id: removes the row with that id if there is one and
        reports success either way; no other row changes and the id is not handed
        out again. */
    method Delete(id: int) returns (reply: Reply)
      requires Valid()
      modifies this
      ensures Valid()
      ensures reply == Reply(200, SuccessBody)
      ensures rows == old(rows) - {id}
      ensures nextId == old(nextId) && issued == old(issued)
      ensures Get(id) == Reply(404, ErrorBody(NotFoundMessage))
    {
      rows := rows - {id};
      reply := Reply(200, SuccessBody);
    }
  }

  /** A session on an empty table: a record created with a position and no status
      gets id 1 and the default status; updating it with a body that omits the
      position clears the position. */
  method OverwriteExample() returns (id: int, createdStatus: string, updatedPosition: string, updatedStatus: string)
    ensures id == 1 && createdStatus == "ASN"
    ensures updatedPosition == "" && updatedStatus == "Aktif"
  {
    var table := new EmployeeTable();
    var created := table.Create(map["nip" := "111", "name" := "A", "position" := "Kepala Bidang"], "2024-01-01");
    id := created.body.id;
    var fetched := table.Get(id);
    createdStatus := fetched.body.record.status;
    var updated := table.Update(id, map["nip" := "111", "name" := "A", "status" := "Aktif"]);
    var refetched := table.Get(id);
    updatedPosition := refetched.body.record.position;
    updatedStatus := refetched.body.record.status;
  }
}
