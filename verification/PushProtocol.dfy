/** The client's Push/Sync messages and durable records as JSON objects
    (mdm-client/.../PushProtocol.kt). Key names are an enumeration, integers are unbounded, and
    what java.util.UUID and java.net.URI accept is a parameter. */
module PushProtocol {
  import opened PushJobs
  import opened Blanks

  datatype Field =
    | JobIdKey | AttemptKey | ArtifactIdKey | ArtifactUrlKey | BundleUrlKey | ArtifactSizeKey | ArtifactShaKey
    | BundleFilenameKey | DestPathKey | DeleteExtrasKey | StatusKey | AddedKey | UpdatedKey | DeletedKey
    | FailureCodeKey | DetailKey | ErrorKey | CompletedAtKey | CommandKey | PhaseKey | ResultKey
    | ActiveKey | PendingKey | CompletedKey

  datatype Json =
    | JNull | JBool(b: bool) | JInt(n: int) | JStr(s: string) | JArr(items: seq<Json>) | JObj(fields: map<Field, Json>)

  type Object = map<Field, Json>

  datatype Checks = Checks(uuid4: string -> bool, httpUrl: string -> bool)

  datatype Command = Command(
    jobId: Option<string>, attempt: int, artifactId: Option<string>, artifactUrl: string, artifactSize: Option<int>,
    artifactSha256: Option<string>, bundleFilename: string, destPath: string, deleteExtras: bool)

  datatype Result = Result(
    jobId: Option<string>, attempt: int, success: bool, destPath: string, added: int, updated: int, deleted: int,
    failureCode: Option<string>, detail: Option<string>, completedAt: int)

  datatype Active = Active(command: Command, phase: string)

  datatype Receipt = Receipt(command: Command, result: Result)

  datatype State = State(active: Option<Active>, pending: seq<Receipt>, completed: seq<Receipt>)

  const EMPTY := State(None, [], [])
  const DOWNLOADING := "downloading"
  const VALIDATING := "validating"
  const APPLYING := "applying"
  const DEFAULT_FILENAME := "bundle.zip"
  const SUCCESS := "success"
  const FAIL := "fail"

  // ---- Text ----

  function TrimStart(s: string): string {
    if s != [] && Whitespace(s[0]) then TrimStart(s[1..]) else s
  }

  function TrimEnd(s: string): string {
    if s != [] && Whitespace(s[|s| - 1]) then TrimEnd(s[..|s| - 1]) else s
  }

  function Trim(s: string): string {
    TrimEnd(TrimStart(s))
  }

  lemma {:induction false} TrimEndKeepsStart(s: string)
    ensures TrimEnd(s) <= s
    ensures TrimEnd(s) != [] ==> !Whitespace(TrimEnd(s)[|TrimEnd(s)| - 1])
  {
    if s != [] && Whitespace(s[|s| - 1]) {
      TrimEndKeepsStart(s[..|s| - 1]);
    }
  }

  lemma {:induction false} TrimStartStops(s: string)
    ensures TrimStart(s) != [] ==> !Whitespace(TrimStart(s)[0])
  {
    if s != [] && Whitespace(s[0]) {
      TrimStartStops(s[1..]);
    }
  }

  lemma TrimTwice(s: string)
    ensures Trim(Trim(s)) == Trim(s)
  {
    TrimStartStops(s);
    TrimEndKeepsStart(TrimStart(s));
  }

  predicate Hex(c: char) {
    '0' <= c <= '9' || 'a' <= c <= 'f' || 'A' <= c <= 'F'
  }

  predicate Sha256(s: string) {
    |s| == 64 && forall i :: 0 <= i < |s| ==> Hex(s[i])
  }

  function Lower(c: char): char {
    if 'A' <= c <= 'Z' then c - 'A' + 'a' else c
  }

  function Lowercase(s: string): string {
    seq(|s|, i requires 0 <= i < |s| => Lower(s[i]))
  }

  // ---- Reading fields ----

  predicate Missing(o: Object, f: Field) {
    f !in o || o[f].JNull?
  }

  function StringAt(o: Object, f: Field): Option<string> {
    if !Missing(o, f) && o[f].JStr? then Some(o[f].s) else None
  }

  function IntAt(o: Object, f: Field): Option<int> {
    if !Missing(o, f) && o[f].JInt? then Some(o[f].n) else None
  }

  predicate StringOrMissing(o: Object, f: Field) {
    Missing(o, f) || o[f].JStr?
  }

  function NonBlank(s: Option<string>): Option<string> {
    if s.Some? && !Blank(s.value) then s else None
  }

  function Put(o: Object, f: Field, v: Json, when: bool): Object {
    if when then o[f := v] else o
  }

  function Text(s: Option<string>): Json {
    if s.Some? then JStr(s.value) else JNull
  }

  // ---- Commands ----

  function UrlKey(o: Object): Field {
    if ArtifactUrlKey in o then ArtifactUrlKey else BundleUrlKey
  }

  predicate Identifier(checks: Checks, s: string) {
    !Blank(s) && checks.uuid4(s)
  }

  /** `parseCommand` does not throw. */
  predicate CommandAccepted(checks: Checks, o: Object) {
    var jobId, artifactId := StringAt(o, JobIdKey), StringAt(o, ArtifactIdKey);
    var url, dest := StringAt(o, UrlKey(o)), StringAt(o, DestPathKey);
    var size, sha := IntAt(o, ArtifactSizeKey), NonBlank(StringAt(o, ArtifactShaKey));
    && StringOrMissing(o, JobIdKey)
    && (jobId.Some? ==> Identifier(checks, jobId.value) && IntAt(o, AttemptKey) == Some(1))
    && StringOrMissing(o, ArtifactIdKey) && (artifactId.Some? ==> Identifier(checks, artifactId.value))
    && (jobId.Some? ==> artifactId.Some?)
    && url.Some? && checks.httpUrl(url.value)
    && dest.Some? && !Blank(Trim(dest.value))
    && (Missing(o, ArtifactSizeKey) || o[ArtifactSizeKey].JInt?) && (size.Some? ==> size.value >= 0)
    && StringOrMissing(o, ArtifactShaKey) && (sha.Some? ==> Sha256(sha.value))
    && (jobId.Some? ==> size.Some? && sha.Some?)
    && StringOrMissing(o, BundleFilenameKey)
    && (Missing(o, DeleteExtrasKey) || o[DeleteExtrasKey].JBool?)
  }

  function ParseCommand(checks: Checks, o: Object): Option<Command> {
    if !CommandAccepted(checks, o) then None
    else
      var sha, name := NonBlank(StringAt(o, ArtifactShaKey)), NonBlank(StringAt(o, BundleFilenameKey));
      Some(Command(
        StringAt(o, JobIdKey), 1, StringAt(o, ArtifactIdKey), StringAt(o, UrlKey(o)).value, IntAt(o, ArtifactSizeKey),
        if sha.Some? then Some(Lowercase(sha.value)) else None,
        if name.Some? then name.value else DEFAULT_FILENAME,
        Trim(StringAt(o, DestPathKey).value),
        !Missing(o, DeleteExtrasKey) && o[DeleteExtrasKey].b))
  }

  function CommandToJson(c: Command): Object {
    var o := map[AttemptKey := JInt(c.attempt), ArtifactUrlKey := JStr(c.artifactUrl),
                 BundleFilenameKey := JStr(c.bundleFilename),
                 DestPathKey := JStr(c.destPath), DeleteExtrasKey := JBool(c.deleteExtras)];
    var o := Put(o, JobIdKey, Text(c.jobId), c.jobId.Some?);
    var o := Put(o, ArtifactIdKey, Text(c.artifactId), c.artifactId.Some?);
    var o := Put(o, ArtifactSizeKey, JInt(if c.artifactSize.Some? then c.artifactSize.value else 0),
                 c.artifactSize.Some?);
    Put(o, ArtifactShaKey, Text(c.artifactSha256), c.artifactSha256.Some?)
  }

  /** Reading back what was written gives the command itself. */
  ghost predicate Storable(checks: Checks, c: Command) {
    ParseCommand(checks, CommandToJson(c)) == Some(c)
  }

  lemma LowercaseSha(s: string)
    requires Sha256(s)
    ensures Sha256(Lowercase(s)) && Lowercase(Lowercase(s)) == Lowercase(s) && !Blank(Lowercase(s))
  {
    assert !Whitespace(Lowercase(s)[0]);
  }

  lemma DefaultFilenameIsNotBlank()
    ensures !Blank(DEFAULT_FILENAME)
  {
    assert !Whitespace(DEFAULT_FILENAME[0]);
  }

  lemma CommandFields(c: Command)
    ensures var o := CommandToJson(c);
      && StringOrMissing(o, JobIdKey) && StringAt(o, JobIdKey) == c.jobId && IntAt(o, AttemptKey) == Some(c.attempt)
      && StringOrMissing(o, ArtifactIdKey) && StringAt(o, ArtifactIdKey) == c.artifactId
      && UrlKey(o) == ArtifactUrlKey && StringAt(o, ArtifactUrlKey) == Some(c.artifactUrl)
      && StringAt(o, DestPathKey) == Some(c.destPath)
      && (Missing(o, ArtifactSizeKey) || o[ArtifactSizeKey].JInt?) && IntAt(o, ArtifactSizeKey) == c.artifactSize
      && StringOrMissing(o, ArtifactShaKey) && StringAt(o, ArtifactShaKey) == c.artifactSha256
      && StringOrMissing(o, BundleFilenameKey) && StringAt(o, BundleFilenameKey) == Some(c.bundleFilename)
      && !Missing(o, DeleteExtrasKey) && o[DeleteExtrasKey] == JBool(c.deleteExtras)
  {
  }

  /** Every command the client accepts survives its own durable record. */
  lemma ParsedIsStorable(checks: Checks, o: Object, c: Command)
    requires ParseCommand(checks, o) == Some(c)
    ensures Storable(checks, c) && c.attempt == 1 && (c.jobId.Some? ==> !Blank(c.jobId.value))
  {
    hide Trim, Lowercase, CommandToJson, StringAt, IntAt, Missing, StringOrMissing, UrlKey, Blank, Sha256;
    CommandFields(c);
    TrimTwice(StringAt(o, DestPathKey).value);
    DefaultFilenameIsNotBlank();
    var sha := NonBlank(StringAt(o, ArtifactShaKey));
    if sha.Some? {
      LowercaseSha(sha.value);
    }
    assert CommandAccepted(checks, CommandToJson(c));
  }

  /** A command carries what the message says. */
  lemma ParsedIsTheMessage(checks: Checks, o: Object, c: Command)
    requires ParseCommand(checks, o) == Some(c)
    ensures c.jobId == StringAt(o, JobIdKey) && c.artifactId == StringAt(o, ArtifactIdKey)
    ensures Some(c.artifactUrl) == if ArtifactUrlKey in o then StringAt(o, ArtifactUrlKey) else StringAt(o,
                                                                                                         BundleUrlKey)
    ensures c.artifactSize == IntAt(o, ArtifactSizeKey) && StringAt(o, DestPathKey).Some?
    ensures c.destPath == Trim(StringAt(o, DestPathKey).value)
    ensures c.bundleFilename ==
      if StringAt(o, BundleFilenameKey).Some? && !Blank(StringAt(o, BundleFilenameKey).value)
      then StringAt(o, BundleFilenameKey).value else "bundle.zip"
    ensures c.artifactSha256.Some? <==> StringAt(o, ArtifactShaKey).Some? && !Blank(StringAt(o, ArtifactShaKey).value)
    ensures c.artifactSha256.Some? ==> c.artifactSha256.value == Lowercase(StringAt(o, ArtifactShaKey).value)
    ensures c.deleteExtras <==> DeleteExtrasKey in o && o[DeleteExtrasKey] == JBool(true)
    ensures c.jobId.Some? ==> IntAt(o, AttemptKey) == Some(1)
  {
    hide Trim, Lowercase, Blank, Sha256;
  }

  /** A command in good order: a job with its identifiers, size and checksum, and for every command a
      usable address, a trimmed destination and a file name. */
  ghost predicate WellFormed(checks: Checks, c: Command) {
    && c.attempt == 1 && checks.httpUrl(c.artifactUrl)
    && c.destPath != [] && Trim(c.destPath) == c.destPath && !Blank(c.destPath) && !Blank(c.bundleFilename)
    && (c.jobId.Some? ==> !Blank(c.jobId.value) && checks.uuid4(c.jobId.value))
    && (c.artifactId.Some? ==> !Blank(c.artifactId.value) && checks.uuid4(c.artifactId.value))
    && (c.artifactSize.Some? ==> c.artifactSize.value >= 0)
    && (c.artifactSha256.Some? ==> |c.artifactSha256.value| == 64)
    && (c.artifactSha256.Some? ==>
          forall i :: 0 <= i < 64 ==>
            '0' <= c.artifactSha256.value[i] <= '9' || 'a' <= c.artifactSha256.value[i] <= 'f')
    && (c.jobId.Some? ==> c.artifactId.Some? && c.artifactSize.Some? && c.artifactSha256.Some?)
  }

  lemma LowerHex(s: string)
    ensures Sha256(s) && Lowercase(s) == s <==>
      |s| == 64 && forall i :: 0 <= i < 64 ==> '0' <= s[i] <= '9' || 'a' <= s[i] <= 'f'
  {
    if Lowercase(s) == s {
      assert forall i :: 0 <= i < |s| ==> Lowercase(s)[i] == s[i];
    }
  }

  lemma HexIsText(s: string)
    requires Sha256(s)
    ensures !Blank(s)
  {
    assert !Whitespace(s[0]);
  }

  /** The durable record gives back exactly the commands in good order. */
  lemma StorableIsWellFormed(checks: Checks, c: Command)
    ensures Storable(checks, c) <==> WellFormed(checks, c)
  {
    hide Trim, Lowercase, CommandToJson, StringAt, IntAt, Missing, StringOrMissing, UrlKey, Blank, Sha256;
    CommandFields(c);
    if c.artifactSha256.Some? {
      LowerHex(c.artifactSha256.value);
      if Sha256(c.artifactSha256.value) {
        HexIsText(c.artifactSha256.value);
      }
    }
    BlankIsEmpty(c.destPath);
    DefaultFilenameIsNotBlank();
  }

  lemma BlankIsEmpty(s: string)
    ensures s == [] ==> Blank(s)
  {
  }

  predicate SameExecution(a: Command, b: Command) {
    && a.jobId == b.jobId && a.attempt == b.attempt && a.artifactId == b.artifactId && a.artifactUrl == b.artifactUrl
    && a.artifactSize == b.artifactSize
    && a.artifactSha256.Some? == b.artifactSha256.Some?
    && (a.artifactSha256.Some? ==> Lowercase(a.artifactSha256.value) == Lowercase(b.artifactSha256.value))
    && a.bundleFilename == b.bundleFilename && a.destPath == b.destPath && a.deleteExtras == b.deleteExtras
  }

  predicate SameIdentity(a: Command, b: Command) {
    a.jobId.Some? && a.jobId == b.jobId && a.attempt == b.attempt
  }

  // ---- Results ----

  /** The PUSH_FILES_RESULT message. */
  function ResultToJson(r: Result): Object {
    var o := map[StatusKey := JStr(if r.success then SUCCESS else FAIL), DestPathKey := JStr(r.destPath)];
    var o := Put(o, JobIdKey, Text(r.jobId), r.jobId.Some?);
    var o := Put(o, AttemptKey, JInt(r.attempt), r.jobId.Some?);
    var o := Put(o, AddedKey, JInt(r.added), r.success);
    var o := Put(o, UpdatedKey, JInt(r.updated), r.success);
    var o := Put(o, DeletedKey, JInt(r.deleted), r.success);
    var o := Put(o, FailureCodeKey, Text(r.failureCode), !r.success && NonBlank(r.failureCode).Some?);
    var o := Put(o, DetailKey, Text(r.detail), !r.success && NonBlank(r.detail).Some?);
    Put(o, ErrorKey, Text(r.detail), !r.success && NonBlank(r.detail).Some? && r.jobId.None?)
  }

  function ResultToStateJson(r: Result): Object {
    ResultToJson(r)[CompletedAtKey := JInt(r.completedAt)]
  }

  function IntOr(o: Object, f: Field, default: int): int {
    if IntAt(o, f).Some? then IntAt(o, f).value else default
  }

  /** `resultFromJson`; None when it throws. */
  function ResultFromJson(o: Object): Option<Result> {
    var status, dest := StringAt(o, StatusKey), StringAt(o, DestPathKey);
    if dest.None? || (status != Some(SUCCESS) && status != Some(FAIL)) then None
    else
      Some(Result(
        NonBlank(StringAt(o, JobIdKey)), IntOr(o, AttemptKey, 1), status == Some(SUCCESS), dest.value,
        IntOr(o, AddedKey, 0), IntOr(o, UpdatedKey, 0), IntOr(o, DeletedKey, 0),
        NonBlank(StringAt(o, FailureCodeKey)),
        NonBlank(if StringAt(o, DetailKey).Some? then StringAt(o, DetailKey) else StringAt(o, ErrorKey)),
        IntOr(o, CompletedAtKey, 0)))
  }

  /** What is left of a result after it was saved and reloaded. */
  function Reread(r: Result): Result {
    Result(r.jobId, if r.jobId.Some? then r.attempt else 1, r.success, r.destPath,
           if r.success then r.added else 0, if r.success then r.updated else 0, if r.success then r.deleted else 0,
           if r.success then None else NonBlank(r.failureCode), if r.success then None else NonBlank(r.detail),
           r.completedAt)
  }

  lemma StatusesDiffer()
    ensures SUCCESS != FAIL
  {
    assert |SUCCESS| != |FAIL|;
  }

  lemma ResultHeader(r: Result)
    ensures var o := ResultToStateJson(r);
      && StringAt(o, StatusKey) == Some(if r.success then SUCCESS else FAIL)
      && StringAt(o, DestPathKey) == Some(r.destPath)
      && StringAt(o, JobIdKey) == r.jobId && IntAt(o, AttemptKey) == (if r.jobId.Some? then Some(r.attempt) else None)
      && IntAt(o, CompletedAtKey) == Some(r.completedAt)
  {
    hide NonBlank;
  }

  lemma ResultCounts(r: Result)
    ensures var o := ResultToStateJson(r);
      && IntAt(o, AddedKey) == (if r.success then Some(r.added) else None)
      && IntAt(o, UpdatedKey) == (if r.success then Some(r.updated) else None)
      && IntAt(o, DeletedKey) == (if r.success then Some(r.deleted) else None)
  {
    hide NonBlank, Text;
  }

  lemma ResultFailure(r: Result)
    ensures var o := ResultToStateJson(r);
      && StringAt(o, FailureCodeKey) == (if r.success then None else NonBlank(r.failureCode))
      && StringAt(o, DetailKey) == (if r.success then None else NonBlank(r.detail))
      && StringAt(o, ErrorKey) == (if r.success || r.jobId.Some? then None else NonBlank(r.detail))
  {
    hide Blank;
  }

  lemma ResultReread(r: Result)
    requires r.jobId.Some? ==> !Blank(r.jobId.value)
    ensures ResultFromJson(ResultToStateJson(r)) == Some(Reread(r))
  {
    hide Blank, ResultToStateJson, StringAt, IntAt;
    StatusesDiffer();
    ResultHeader(r);
    ResultCounts(r);
    ResultFailure(r);
  }

  /** Saved, reloaded after a crash and sent again, a result is the same message. */
  lemma ResultResentIsSame(r: Result)
    requires r.jobId.Some? ==> !Blank(r.jobId.value)
    ensures ResultFromJson(ResultToStateJson(r)).Some?
    ensures ResultToJson(ResultFromJson(ResultToStateJson(r)).value) == ResultToJson(r)
  {
    ResultReread(r);
    hide Blank;
    assert NonBlank(NonBlank(r.failureCode)) == NonBlank(r.failureCode);
    assert NonBlank(NonBlank(r.detail)) == NonBlank(r.detail);
  }

  // ---- Durable state ----

  function ReceiptToJson(r: Receipt): Json {
    JObj(map[CommandKey := JObj(CommandToJson(r.command)), ResultKey := JObj(ResultToStateJson(r.result))])
  }

  function ReceiptsToJson(rs: seq<Receipt>): seq<Json> {
    seq(|rs|, i requires 0 <= i < |rs| => ReceiptToJson(rs[i]))
  }

  function StateToJson(s: State): Object {
    map[ActiveKey := if s.active.None? then JNull
                     else JObj(map[CommandKey := JObj(CommandToJson(s.active.value.command)),
                                   PhaseKey := JStr(s.active.value.phase)]),
        PendingKey := JArr(ReceiptsToJson(s.pending)),
        CompletedKey := JArr(ReceiptsToJson(s.completed))]
  }

  function ObjectAt(o: Object, f: Field): Option<Object> {
    if f in o && o[f].JObj? then Some(o[f].fields) else None
  }

  /** One stored receipt, or None when it is corrupt and skipped. */
  function ReceiptFromJson(checks: Checks, item: Json): Option<Receipt> {
    if !item.JObj? then None
    else
      var command, result := ObjectAt(item.fields, CommandKey), ObjectAt(item.fields, ResultKey);
      if command.None? || result.None? then None
      else
        var c, r := ParseCommand(checks, command.value), ResultFromJson(result.value);
        if c.None? || r.None? then None else Some(Receipt(c.value, r.value))
  }

  function ReceiptsFromJson(checks: Checks, items: seq<Json>): seq<Receipt> {
    if items == [] then []
    else
      var last := ReceiptFromJson(checks, items[|items| - 1]);
      ReceiptsFromJson(checks, items[..|items| - 1]) + (if last.Some? then [last.value] else [])
  }

  function ItemsAt(o: Object, f: Field): seq<Json> {
    if f in o && o[f].JArr? then o[f].items else []
  }

  function ActiveFromJson(checks: Checks, o: Object): Option<Active> {
    var active := ObjectAt(o, ActiveKey);
    if active.None? || ObjectAt(active.value, CommandKey).None? || StringAt(active.value, PhaseKey).None? then None
    else
      var c := ParseCommand(checks, ObjectAt(active.value, CommandKey).value);
      if c.None? then None else Some(Active(c.value, StringAt(active.value, PhaseKey).value))
  }

  function StateFromJson(checks: Checks, o: Object): State {
    State(ActiveFromJson(checks, o), ReceiptsFromJson(checks, ItemsAt(o, PendingKey)),
          ReceiptsFromJson(checks, ItemsAt(o, CompletedKey)))
  }

  /** The receipt loop of `stateFromJson`: a corrupt entry costs itself only. */
  method ReadReceipts(checks: Checks, items: seq<Json>) returns (receipts: seq<Receipt>)
    ensures receipts == ReceiptsFromJson(checks, items)
  {
    receipts := [];
    for i := 0 to |items|
      invariant receipts == ReceiptsFromJson(checks, items[..i])
    {
      assert items[..i + 1][..i] == items[..i];
      var receipt := ReceiptFromJson(checks, items[i]);
      if receipt.Some? {
        receipts := receipts + [receipt.value];
      }
    }
    assert items[..|items|] == items;
  }

  ghost predicate StorableReceipt(checks: Checks, r: Receipt) {
    && Storable(checks, r.command) && r.result.jobId == r.command.jobId
    && (r.command.jobId.Some? ==> !Blank(r.command.jobId.value))
  }

  ghost predicate StorableState(checks: Checks, s: State) {
    && (s.active.Some? ==> Storable(checks, s.active.value.command))
    && (forall r :: r in s.pending ==> StorableReceipt(checks, r))
    && (forall r :: r in s.completed ==> StorableReceipt(checks, r))
  }

  function RereadAll(rs: seq<Receipt>): seq<Receipt> {
    seq(|rs|, i requires 0 <= i < |rs| => Receipt(rs[i].command, Reread(rs[i].result)))
  }

  lemma ReceiptReread(checks: Checks, r: Receipt)
    requires StorableReceipt(checks, r)
    ensures ReceiptFromJson(checks, ReceiptToJson(r)) == Some(Receipt(r.command, Reread(r.result)))
  {
    hide ParseCommand, CommandToJson, ResultToStateJson, ResultFromJson;
    ResultReread(r.result);
  }

  lemma {:induction false} ReceiptsReread(checks: Checks, rs: seq<Receipt>)
    requires forall r :: r in rs ==> StorableReceipt(checks, r)
    ensures ReceiptsFromJson(checks, ReceiptsToJson(rs)) == RereadAll(rs)
  {
    hide StorableReceipt, ReceiptFromJson, ReceiptToJson, Reread;
    if rs != [] {
      var front := rs[..|rs| - 1];
      ReceiptsReread(checks, front);
      ReceiptReread(checks, rs[|rs| - 1]);
      assert ReceiptsToJson(rs)[..|rs| - 1] == ReceiptsToJson(front);
    }
  }

  /** The durable record round trips: same active execution and phase, same receipts in the same
      order, each result with the same wire message, identity and completion time. */
  lemma StateReread(checks: Checks, s: State)
    requires StorableState(checks, s)
    ensures StateFromJson(checks, StateToJson(s)) == State(s.active, RereadAll(s.pending), RereadAll(s.completed))
  {
    hide StorableReceipt, ReceiptsToJson, ReceiptsFromJson, ParseCommand, CommandToJson;
    ReceiptsReread(checks, s.pending);
    ReceiptsReread(checks, s.completed);
  }
}
