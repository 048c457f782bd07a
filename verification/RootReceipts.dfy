/** The root receipt of a stored bundle: its caps, and the exact inventory it pins. */
module RootReceipts {
  import opened Basics
  import opened Manifests
  import opened Trials
  import opened ValidationCodes
  import opened Delivery
  import opened Results
  import opened ArtifactArrays
  import opened ArtifactRecords

  const MAX_BUNDLE_BYTES := 64 * 1024 * 1024
  const MAX_MEMBER_COUNT := 512

  // ------------------------------------------------------------------ members

  datatype Kind = TrialKind | SpecKind | FaultKind | ResultKind | ActionsKind | DeliveryKind | ReportKind

  const KINDS := {TrialKind, SpecKind, FaultKind, ResultKind, ActionsKind, DeliveryKind, ReportKind}

  /** The validation report as it is stored, beside the digests of what it is about. */
  datatype ReportDoc = ReportDoc(report: Report, manifest: Option<Sha<FaultManifest>>, clean: Sha<TraceContent>,
                                 delivered: Sha<TraceContent>)

  /** The canonical JSON of one of the seven documents, or other text. */
  datatype Json =
    | TrialJson(trial: TrialManifest)
    | SpecJson(spec: RunBudget)
    | FaultJson(fields: Document)
    | ResultJson(result: TrialResult)
    | ActionsJson(entries: seq<EntryDoc>)
    | DeliveryJson(delivery: DeliveryDoc)
    | ReportJson(report: ReportDoc)
    | OtherJson(text: string)

  type Documents = map<Kind, Json>

  datatype MemberPath = JsonPath(kind: Kind) | ArrayMember(path: ArrayPath)
  datatype Bytes = JsonBytes(json: Json) | ArrayBytes(file: File)
  datatype Member = Member(digest: Sha<Bytes>, size: nat)

  type Contents = map<MemberPath, Bytes>
  type Members = map<MemberPath, Member>

  /** What a receipt says the documents are. */
  datatype Links = Links(trial: Sha<TrialManifest>, pairKey: Sha<PairFields>, runSpec: Sha<RunBudget>,
                         fault: Sha<FaultManifest>, result: Sha<TrialResult>, terminalTrace: Sha<ResultBody>,
                         actionTrace: Sha<seq<ActionEntry>>, cleanTrace: Sha<TraceContent>,
                         deliveredTrace: Sha<TraceContent>)

  datatype RootReceipt = RootReceipt(links: Links, members: Members)

  /** How long encodings are: arrays, documents, foreign array bytes, and the receipt itself. */
  datatype Lengths = Lengths(arrays: Sizes, json: Json -> nat, foreign: string -> nat, root: RootReceipt -> nat)
  {
    function Of(b: Bytes): nat {
      match b
      case JsonBytes(j) => json(j)
      case ArrayBytes(Npy(a)) => arrays(a)
      case ArrayBytes(OtherBytes(t)) => foreign(t)
    }
  }

  /** Canonical JSON ends in a newline, so it is never empty. */
  ghost predicate NeverEmpty(l: Lengths) {
    (forall j :: l.json(j) > 0) && forall r :: l.root(r) > 0
  }

  function ContentsOf(documents: Documents, arrays: Files): Contents {
    (map k | k in documents :: JsonPath(k) := JsonBytes(documents[k]))
    + (map p | p in arrays :: ArrayMember(p) := ArrayBytes(arrays[p]))
  }

  function MembersOf(l: Lengths, contents: Contents): Members {
    map p <- contents :: Member(Sha(contents[p]), l.Of(contents[p]))
  }

  // ------------------------------------------------------------------ totals

  /** The sum of the sizes of some members, taken in any order. */
  ghost function Total(members: Members): nat {
    if members == map[] then 0
    else
      var p :| p in members;
      members[p].size + Total(members - {p})
  }

  /** Any member may be taken first. */
  lemma {:induction false} TotalTake(members: Members, p: MemberPath)
    requires p in members
    ensures Total(members) == members[p].size + Total(members - {p})
    decreases |members|
  {
    var q :| q in members && Total(members) == members[q].size + Total(members - {q});
    if q != p {
      TotalTake(members - {q}, p);
      TotalTake(members - {p}, q);
      assert members - {q} - {p} == members - {p} - {q};
    }
  }

  // ------------------------------------------------------------------ the receipt

  /** The documents that members name. */
  function KindsOf(members: Members): set<Kind> {
    set p <- members | p.JsonPath? :: p.kind
  }

  predicate SizesOk(members: Members) {
    forall p <- members :: 1 <= members[p].size <= MAX_MEMBER_BYTES
  }

  /** The rules of a receipt's constructor and of those of its members. */
  ghost predicate ReceiptOk(r: RootReceipt) {
    && 1 <= |r.members| <= MAX_MEMBER_COUNT && SizesOk(r.members)
    && KindsOf(r.members) == KINDS && Total(r.members) <= MAX_BUNDLE_BYTES
  }

  /** Adds the sizes up, member by member. */
  method Sum(members: Members) returns (total: nat)
    ensures total == Total(members)
  {
    total := 0;
    var left := members;
    while left != map[]
      invariant left.Keys <= members.Keys && total + Total(left) == Total(members)
      decreases |left|
    {
      var p :| p in left;
      TotalTake(left, p);
      total, left := total + left[p].size, left - {p};
    }
  }

  method BuildReceipt(links: Links, members: Members) returns (r: Reply<RootReceipt>)
    ensures r == if ReceiptOk(RootReceipt(links, members)) then Returned(RootReceipt(links, members))
                 else Raised(OtherError)
  {
    if !SizesOk(members) { return Raised(OtherError); }
    if members == map[] || |members| > MAX_MEMBER_COUNT { return Raised(OtherError); }
    if KindsOf(members) != KINDS { return Raised(OtherError); }
    var total := Sum(members);
    if total > MAX_BUNDLE_BYTES { return Raised(OtherError); }
    return Returned(RootReceipt(links, members));
  }

  // ------------------------------------------------------------------ the inventory

  /** A bundle as it lies in its directory: the root receipt, if there is one, and the rest. */
  datatype Directory = Directory(root: Option<RootReceipt>, contents: Contents)

  /** The receipt pins exactly what is there, and everything is within the caps. */
  ghost predicate InventoryOk(l: Lengths, d: Directory) {
    && d.root.Some? && ReceiptOk(d.root.value) && d.root.value.members == MembersOf(l, d.contents)
    && 1 <= l.root(d.root.value) <= MAX_MEMBER_BYTES
    && l.root(d.root.value) + Total(d.root.value.members) <= MAX_BUNDLE_BYTES
  }

  /** The directory is within the caps on one member, on their number and on their total. */
  ghost predicate CapsOk(l: Lengths, contents: Contents, root: nat) {
    && 1 <= root <= MAX_MEMBER_BYTES && SizesOk(MembersOf(l, contents)) && |contents| <= MAX_MEMBER_COUNT
    && root + Total(MembersOf(l, contents)) <= MAX_BUNDLE_BYTES
  }

  /** Scans the directory file by file, and stops at the first cap exceeded. */
  method ScanDirectory(l: Lengths, contents: Contents, root: nat) returns (ok: bool)
    ensures ok <==> CapsOk(l, contents, root)
  {
    if root < 1 || root > MAX_MEMBER_BYTES { return false; }
    var total: nat, count: nat := root, 1;
    var left := contents;
    while left != map[]
      invariant Scanned(l, contents, left, root, total, count)
      decreases |left|
    {
      var p :| p in left;
      var size := l.Of(left[p]);
      ScanNext(l, contents, left, root, total, count, p);
      if size < 1 || size > MAX_MEMBER_BYTES { return false; }
      total, count, left := total + size, count + 1, left - {p};
      if count > MAX_MEMBER_COUNT + 1 || total > MAX_BUNDLE_BYTES { return false; }
    }
    ScanEnds(l, contents, left, root, total, count);
    return true;
  }

  /** Part of a directory has been scanned, within the caps. */
  ghost predicate Scanned(l: Lengths, all: Contents, left: Contents, root: nat, total: nat, count: nat) {
    && left.Keys <= all.Keys && (forall p <- left :: left[p] == all[p])
    && (forall p <- all :: p in left || 1 <= l.Of(all[p]) <= MAX_MEMBER_BYTES)
    && total + Total(MembersOf(l, left)) == root + Total(MembersOf(l, all))
    && count + |left| == 1 + |all| && count <= MAX_MEMBER_COUNT + 1 && total <= MAX_BUNDLE_BYTES
  }

  /** One more file: what is left shrinks by it, and so does its total. */
  lemma {:induction false} ScanNext(l: Lengths, all: Contents, left: Contents, root: nat, total: nat, count: nat,
                                    p: MemberPath)
    requires Scanned(l, all, left, root, total, count) && p in left
    ensures var (size, sum) := (l.Of(left[p]), total + l.Of(left[p]));
            if !(1 <= size <= MAX_MEMBER_BYTES) || count > MAX_MEMBER_COUNT || sum > MAX_BUNDLE_BYTES
            then !CapsOk(l, all, root)
            else Scanned(l, all, left - {p}, root, sum, count + 1) && |left - {p}| == |left| - 1
  {
    var members := MembersOf(l, left);
    TotalTake(members, p);
    assert MembersOf(l, left - {p}) == members - {p};
    assert (left - {p}).Keys == left.Keys - {p};
    assert p in MembersOf(l, all) && MembersOf(l, all)[p].size == l.Of(left[p]);
  }

  lemma {:induction false} ScanEnds(l: Lengths, all: Contents, left: Contents, root: nat, total: nat, count: nat)
    requires Scanned(l, all, left, root, total, count) && left == map[] && 1 <= root <= MAX_MEMBER_BYTES
    ensures CapsOk(l, all, root)
  {
    assert MembersOf(l, left) == map[];
  }

  /** Reads the receipt of a directory that it pins exactly. */
  method ReadInventory(l: Lengths, d: Directory) returns (r: Reply<RootReceipt>)
    ensures r.Returned? <==> InventoryOk(l, d)
    ensures r.Returned? ==> r.value == d.root.value
  {
    if d.root.None? { return Raised(OtherError); }
    var scanned := ScanDirectory(l, d.contents, l.root(d.root.value));
    SameCount(l, d.contents);
    if !scanned { return Raised(OtherError); }
    var receipt := BuildReceipt(d.root.value.links, d.root.value.members);
    if receipt.Raised? { return receipt; }
    if d.root.value.members != MembersOf(l, d.contents) { return Raised(OtherError); }
    return receipt;
  }

  lemma {:induction false} SameCount(l: Lengths, contents: Contents)
    ensures |MembersOf(l, contents)| == |contents|
  {
    assert MembersOf(l, contents).Keys == contents.Keys;
  }
}
