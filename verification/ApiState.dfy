/** The authenticated-request ledger: what is kept between runs and what each operation does to it. */
module ApiState {
  import opened Wrappers
  import opened Text

  const DAY: nat := 86400
  const EPOCH_MAX: nat := 4294967295
  const EXCLUSION_LIFE: nat := 21600
  const BACKOFF_CAP: nat := 21600
  const DEVICE_MAX: nat := 18446744073709551615
  const MTIME_MAX: nat := 9223372036854775807
  const MAX_ATTEMPTS: nat := 6
  const MAX_EXCLUSIONS: nat := 16
  const KEY_RECORD_SIZE: nat := 65

  datatype FailureClass = NoFailure | Auth | Device | Rate | Transient

  datatype Identity = Identity(device: nat, inode: nat, mtime: nat, size: nat)

  datatype Exclusion = Exclusion(name: string, expiry: nat)

  /** The ledger's variables; `loaded` is false while they are still unset. */
  datatype Record = Record(
    loaded: bool,
    observed: nat,
    windowStart: nat,
    attemptCount: nat,
    attempts: seq<nat>,
    backoffUntil: nat,
    failureClass: FailureClass,
    credential: Identity,
    configuredDevice: string,
    exclusions: seq<Exclusion>)

  /** The variables, the state file's text, and whether this process holds the interface lock. */
  datatype Ledger = Ledger(record: Record, file: Option<string>, locked: bool)

  /** A return status of 0, 75 or 1. */
  datatype Status = Done | Deferred | Failed

  /** How far a save gets: through, stopped before the rename, or stopped by a sync after it. */
  datatype SaveFault = Calm | BeforeRename | AfterRename

  datatype Edit = Edit(record: Record, ok: bool)

  datatype Verdict = Verdict(record: Record, status: Status)

  datatype Reply = Reply(ledger: Ledger, status: Status)

  const Blank := Record(false, 0, 0, 0, [], 0, NoFailure, Identity(0, 0, 0, 0), "", [])

  // ------------------------------------------------------------- validity

  predicate IsEpoch(n: nat) {
    n <= EPOCH_MAX
  }

  predicate IsAlphanumeric(c: char) {
    'A' <= c <= 'Z' || 'a' <= c <= 'z' || '0' <= c <= '9'
  }

  predicate IsServerChar(c: char) {
    IsAlphanumeric(c) || c == '-'
  }

  predicate IsDeviceChar(c: char) {
    IsAlphanumeric(c) || c in " ._-"
  }

  predicate IsServerName(s: string) {
    1 <= |s| <= 64 && forall i :: 0 <= i < |s| ==> IsServerChar(s[i])
  }

  predicate IsDeviceName(s: string) {
    1 <= |s| <= 64 && IsAlphanumeric(s[0]) && forall i :: 0 <= i < |s| ==> IsDeviceChar(s[i])
  }

  predicate IdentityIsValid(c: Identity) {
    && c.device <= DEVICE_MAX && c.inode <= DEVICE_MAX && c.mtime <= MTIME_MAX
    && ((c.size == 0 && c.device == 0 && c.inode == 0 && c.mtime == 0)
        || (c.size == KEY_RECORD_SIZE && c.inode != 0))
  }

  predicate AttemptsAreValid(attempts: seq<nat>, observed: nat) {
    && (forall i :: 0 <= i < |attempts| ==> observed < attempts[i] + DAY && attempts[i] <= observed)
    && (forall i, j :: 0 <= i < j < |attempts| ==> attempts[i] <= attempts[j])
  }

  function WindowStart(attempts: seq<nat>, observed: nat): nat {
    if attempts == [] then observed else attempts[0]
  }

  predicate WindowIsValid(r: Record) {
    && r.loaded
    && r.observed + DAY <= EPOCH_MAX
    && r.attemptCount == |r.attempts| <= MAX_ATTEMPTS
    && r.windowStart == WindowStart(r.attempts, r.observed)
    && AttemptsAreValid(r.attempts, r.observed)
  }

  predicate BackoffIsValid(r: Record) {
    && r.backoffUntil <= r.observed + DAY
    && (r.failureClass.NoFailure? <==> r.backoffUntil == 0)
  }

  predicate OwnerIsValid(r: Record, persistent: bool) {
    && IdentityIsValid(r.credential)
    && (r.credential.size == KEY_RECORD_SIZE ==> r.credential.mtime <= r.observed + 300)
    && (r.configuredDevice != "" ==> IsDeviceName(r.configuredDevice))
    && (persistent ==> r.credential.size == KEY_RECORD_SIZE && r.configuredDevice != "")
  }

  predicate Distinct(x: seq<Exclusion>) {
    forall i, j :: 0 <= i < j < |x| ==> x[i].name != x[j].name
  }

  predicate ExclusionsAreValid(x: seq<Exclusion>, observed: nat) {
    && |x| <= MAX_EXCLUSIONS
    && Distinct(x)
    && forall i :: 0 <= i < |x| ==>
         IsServerName(x[i].name) && IsEpoch(x[i].expiry) && x[i].expiry <= observed + EXCLUSION_LIFE
  }

  /** Defaults are valid in memory only; a saved record also names its credential and device. */
  predicate MemoryIsValid(r: Record, persistent: bool) {
    && WindowIsValid(r)
    && BackoffIsValid(r)
    && OwnerIsValid(r, persistent)
    && ExclusionsAreValid(r.exclusions, r.observed)
  }

  // ----------------------------------------------------------- operations

  function Defaults(now: nat): Record {
    Record(true, now, now, 0, [], 0, NoFailure, Identity(0, 0, 0, 0), "", [])
  }

  function KeepRecent(attempts: seq<nat>, now: nat): seq<nat> {
    if attempts == [] then []
    else
      var k := |attempts| - 1;
      KeepRecent(attempts[..k], now) + if now < attempts[k] + DAY then [attempts[k]] else []
  }

  function KeepLive(x: seq<Exclusion>, now: nat): seq<Exclusion> {
    if x == [] then []
    else
      var k := |x| - 1;
      KeepLive(x[..k], now) + if x[k].expiry > now then [x[k]] else []
  }

  function Pruned(r: Record, now: nat): Record {
    var attempts := KeepRecent(r.attempts, now);
    r.(observed := now,
       windowStart := WindowStart(attempts, now),
       attemptCount := |attempts|,
       attempts := attempts,
       exclusions := KeepLive(r.exclusions, now))
  }

  function Prune(r: Record, now: nat): Edit {
    if !IsEpoch(now) || !r.loaded || !IsEpoch(r.observed) || now < r.observed then Edit(r, false)
    else
      var p := Pruned(r, now);
      Edit(p, MemoryIsValid(p, false))
  }

  function FindExclusion(x: seq<Exclusion>, name: string): (k: nat)
    ensures k <= |x|
    ensures forall i :: 0 <= i < k ==> x[i].name != name
    ensures k < |x| ==> x[k].name == name
  {
    if x == [] || x[0].name == name then 0 else 1 + FindExclusion(x[1..], name)
  }

  /** The first entry of least expiry. */
  function Oldest(x: seq<Exclusion>): (k: nat)
    requires x != []
    ensures k < |x|
    ensures forall i :: 0 <= i < |x| ==> x[k].expiry <= x[i].expiry
    ensures forall i :: 0 <= i < k ==> x[k].expiry < x[i].expiry
  {
    if |x| == 1 then 0
    else
      var k := Oldest(x[..|x| - 1]);
      if x[|x| - 1].expiry < x[k].expiry then |x| - 1 else k
  }

  function Without(x: seq<Exclusion>, k: nat): seq<Exclusion>
    requires k < |x|
  {
    x[..k] + x[k + 1..]
  }

  function WithExclusion(x: seq<Exclusion>, name: string, expiry: nat): seq<Exclusion> {
    var k := FindExclusion(x, name);
    if k < |x| then x[k := Exclusion(name, expiry)]
    else (if |x| >= MAX_EXCLUSIONS then Without(x, Oldest(x)) else x) + [Exclusion(name, expiry)]
  }

  function AddExclusion(r: Record, name: string, now: nat): Edit {
    if !IsServerName(name) || !IsEpoch(now) then Edit(r, false)
    else
      var p := Prune(r, now);
      if !p.ok || now + EXCLUSION_LIFE > EPOCH_MAX then Edit(p.record, false)
      else Edit(p.record.(exclusions := WithExclusion(p.record.exclusions, name, now + EXCLUSION_LIFE)), true)
  }

  function AttemptAllowed(r: Record, now: nat, bypass: bool): Verdict {
    var p := Prune(r, now);
    Verdict(p.record,
      if !p.ok then Failed
      else if p.record.attemptCount >= MAX_ATTEMPTS then Deferred
      else if p.record.backoffUntil <= now then Done
      else match p.record.failureClass
        case Auth | Device => if bypass then Done else Deferred
        case Rate | Transient => Deferred
        case NoFailure => Failed)
  }

  function WithAttempt(r: Record, now: nat): Record {
    var attempts := r.attempts + [now];
    r.(observed := now, windowStart := attempts[0], attemptCount := |attempts|, attempts := attempts)
  }

  function Save(l: Ledger, fault: SaveFault): Reply {
    if !MemoryIsValid(l.record, true) || !l.locked || fault.BeforeRename? then Reply(l, Failed)
    else Reply(l.(file := Some(Render(l.record))), if fault.Calm? then Done else Failed)
  }

  function RemoveExclusion(l: Ledger, name: string, now: nat, fault: SaveFault): Reply {
    if !IsServerName(name) || !IsEpoch(now) then Reply(l, Failed)
    else
      var p := Prune(l.record, now);
      var k := FindExclusion(p.record.exclusions, name);
      if !p.ok || k == |p.record.exclusions| then Reply(l.(record := p.record), Failed)
      else Save(l.(record := p.record.(exclusions := Without(p.record.exclusions, k))), fault)
  }

  function RecordAttempt(l: Ledger, now: nat, bypass: bool, fault: SaveFault): Reply {
    var v := AttemptAllowed(l.record, now, bypass);
    match v.status
    case Done => Save(l.(record := WithAttempt(v.record, now)), fault)
    case Deferred => var s := Save(l.(record := v.record), fault); if s.status.Done? then s.(status := Deferred) else s
    case Failed => Reply(l.(record := v.record), Failed)
  }

  function GateBeforePreflight(l: Ledger, now: nat, bypass: bool, fault: SaveFault): Reply {
    var v := AttemptAllowed(l.record, now, bypass);
    match v.status
    case Deferred => var s := Save(l.(record := v.record), fault); if s.status.Done? then s.(status := Deferred) else s
    case Done | Failed => Reply(l.(record := v.record), v.status)
  }

  function Power2(n: nat): (p: nat)
    ensures p > 0
  {
    if n == 0 then 1 else 2 * Power2(n - 1)
  }

  function Min(a: nat, b: nat): nat {
    if a <= b then a else b
  }

  function Max(a: nat, b: nat): nat {
    if a <= b then b else a
  }

  /** 300 seconds doubled once per further attempt, up to six hours. */
  function BackoffBase(attempt: nat): nat
    requires attempt >= 1
  {
    Min(300 * Power2(attempt - 1), BACKOFF_CAP)
  }

  /** An empty jitter draws `random`; an empty Retry-After means the response carried none. */
  function ComputeBackoff(attempt: nat, jitter: string, random: nat, retryAfter: string): Result<nat> {
    if attempt < 1 || attempt > 100 then Err
    else
      var base := BackoffBase(attempt);
      var spread := base / 10;
      if jitter != "" && !(IsCanonical(jitter) && DecimalValue(jitter) <= spread) then Err
      else
        var extra := if jitter == "" then random % (spread + 1) else DecimalValue(jitter);
        var computed := Min(base + extra, BACKOFF_CAP);
        if retryAfter == "" then Ok(computed)
        else if !(IsCanonical(retryAfter) && DecimalValue(retryAfter) <= DAY) then Err
        else Ok(Max(DecimalValue(retryAfter), computed))
  }

  /** The failure class and deadline an outcome asks for. */
  function Sentence(r: Record, now: nat, outcome: string, retryAfter: string, failedServer: string,
                    jitter: string, random: nat): Result<Record>
  {
    match ClassNamed(outcome)
    case None => Err
    case Some(NoFailure) =>
      if retryAfter != "" || failedServer != "" then Err
      else Ok(r.(failureClass := NoFailure, backoffUntil := 0))
    case Some(Auth) | Some(Device) =>
      if retryAfter != "" then Err
      else Ok(r.(failureClass := ClassNamed(outcome).value, backoffUntil := now + DAY))
    case Some(Rate) | Some(Transient) =>
      if r.attemptCount < 1 then Err
      else
        var backoff :- ComputeBackoff(r.attemptCount, jitter, random, retryAfter);
        Ok(r.(failureClass := ClassNamed(outcome).value, backoffUntil := now + backoff))
  }

  function RecordOutcome(l: Ledger, now: nat, outcome: string, retryAfter: string, failedServer: string,
                         jitter: string, random: nat, fault: SaveFault): Reply
  {
    if !IsEpoch(now) then Reply(l, Failed)
    else
      var p := Prune(l.record, now);
      if !p.ok then Reply(l.(record := p.record), Failed)
      else
        var s := Sentence(p.record, now, outcome, retryAfter, failedServer, jitter, random);
        if s.Err? then Reply(l.(record := p.record), Failed)
        else if failedServer == "" then Save(l.(record := s.value), fault)
        else
          var a := AddExclusion(s.value, failedServer, now);
          if a.ok then Save(l.(record := a.record), fault) else Reply(l.(record := a.record), Failed)
  }

  /** `installed` is the installed key file's identity, absent when it could not be installed or read. */
  function RefreshIdentity(r: Record, now: nat, device: string, installed: Option<Identity>): Edit {
    if !IsEpoch(now) || !IsDeviceName(device) then Edit(r, false)
    else
      var p := Prune(r, now);
      if !p.ok || installed.None? || !IdentityIsValid(installed.value) || installed.value.size != KEY_RECORD_SIZE then
        Edit(p.record, false)
      else
        var changed := installed.value != p.record.credential || device != p.record.configuredDevice;
        var named := p.record.(credential := installed.value, configuredDevice := device);
        var next := if changed && (named.failureClass.Auth? || named.failureClass.Device?)
                    then named.(failureClass := NoFailure, backoffUntil := 0) else named;
        Edit(next, MemoryIsValid(next, false))
  }

  function Load(l: Ledger, now: nat): Reply {
    if !IsEpoch(now) then Reply(l, Failed)
    else if l.file.None? then Reply(l.(record := Defaults(now)), Done)
    else
      var decoded := Parse(l.file.value);
      if decoded.Err? then Reply(l, Failed)
      else
        var r := decoded.value;
        if !MemoryIsValid(r, true) || now < r.observed then Reply(l.(record := r), Failed)
        else
          var p := Prune(r, now);
          Reply(l.(record := p.record), if p.ok then Done else Failed)
  }

  // ---------------------------------------------------------------- codec

  const MAX_TEXT: nat := 4096
  const MIN_LINES: nat := 12
  const MAX_LINES: nat := 34
  const MAX_LINE: nat := 256

  function ClassName(c: FailureClass): string {
    match c
    case NoFailure => "none"
    case Auth => "auth"
    case Device => "device"
    case Rate => "rate"
    case Transient => "transient"
  }

  function ClassNamed(s: string): Option<FailureClass> {
    if s == "none" then Some(NoFailure)
    else if s == "auth" then Some(Auth)
    else if s == "device" then Some(Device)
    else if s == "rate" then Some(Rate)
    else if s == "transient" then Some(Transient)
    else None
  }

  function TwoDigits(k: nat): (s: string)
    requires k < 100
    ensures |s| == 2 && AllDigits(s)
  {
    [DigitChar(k / 10), DigitChar(k % 10)]
  }

  function Field(key: string, value: string): string {
    key + "=" + value
  }

  function NumberField(key: string, value: nat): string {
    Field(key, ToDecimal(value))
  }

  function AttemptLine(k: nat, epoch: nat): string
    requires k < 100
  {
    NumberField("attempt_" + TwoDigits(k), epoch)
  }

  function ExclusionLine(k: nat, x: Exclusion): string
    requires k < 100
  {
    Field("exclude_" + TwoDigits(k), x.name + "," + ToDecimal(x.expiry))
  }

  function AttemptLines(attempts: seq<nat>): (s: seq<string>)
    requires |attempts| < 100
    ensures |s| == |attempts|
  {
    seq(|attempts|, i requires 0 <= i < |attempts| => AttemptLine(i + 1, attempts[i]))
  }

  function ExclusionLines(x: seq<Exclusion>): (s: seq<string>)
    requires |x| < 99
    ensures |s| == |x|
  {
    seq(|x|, i requires 0 <= i < |x| => ExclusionLine(i + 1, x[i]))
  }

  function HeadLines(r: Record): (s: seq<string>)
    ensures |s| == 4
  {
    ["version=1",
     NumberField("observed_at", r.observed),
     NumberField("window_start", r.windowStart),
     NumberField("attempt_count", r.attemptCount)]
  }

  function BodyLines(r: Record): (s: seq<string>)
    ensures |s| == 8
  {
    [NumberField("backoff_until", r.backoffUntil),
     Field("failure_class", ClassName(r.failureClass)),
     NumberField("credential_device", r.credential.device),
     NumberField("credential_inode", r.credential.inode),
     NumberField("credential_mtime", r.credential.mtime),
     NumberField("credential_size", r.credential.size),
     Field("configured_device", r.configuredDevice),
     NumberField("exclude_count", |r.exclusions|)]
  }

  /** The record's counts fit the two-digit indices. */
  predicate Countable(r: Record) {
    r.loaded && r.attemptCount == |r.attempts| <= MAX_ATTEMPTS && |r.exclusions| <= MAX_EXCLUSIONS
  }

  function RecordLines(r: Record): (s: seq<string>)
    requires Countable(r)
    ensures |s| == MIN_LINES + |r.attempts| + |r.exclusions|
  {
    HeadLines(r) + AttemptLines(r.attempts) + BodyLines(r) + ExclusionLines(r.exclusions)
  }

  function Render(r: Record): string
    requires Countable(r)
  {
    JoinLines(RecordLines(r))
  }

  function Need(b: bool): Result<()> {
    if b then Ok(()) else Err
  }

  function ReadField(line: string, key: string): Result<string> {
    var prefix := key + "=";
    if prefix <= line then Ok(line[|prefix|..]) else Err
  }

  function ReadNumber(line: string, key: string): Result<nat> {
    var v :- ReadField(line, key);
    if IsCanonical(v) then Ok(DecimalValue(v)) else Err
  }

  function ReadExclusion(line: string, k: nat): Result<Exclusion>
    requires k < 100
  {
    var v :- ReadField(line, "exclude_" + TwoDigits(k));
    var comma := IndexOf(v, ',');
    if comma == |v| || !IsServerName(v[..comma]) || !IsCanonical(v[comma + 1..]) then Err
    else Ok(Exclusion(v[..comma], DecimalValue(v[comma + 1..])))
  }

  function ReadAttempts(lines: seq<string>): (r: Result<seq<nat>>)
    requires |lines| < 100
    ensures r.Ok? ==> |r.value| == |lines|
  {
    if lines == [] then Ok([])
    else
      var k := |lines| - 1;
      var front :- ReadAttempts(lines[..k]);
      var epoch :- ReadNumber(lines[k], "attempt_" + TwoDigits(k + 1));
      Ok(front + [epoch])
  }

  function ReadExclusions(lines: seq<string>): (r: Result<seq<Exclusion>>)
    requires |lines| < 99
    ensures r.Ok? ==> |r.value| == |lines|
  {
    if lines == [] then Ok([])
    else
      var k := |lines| - 1;
      var front :- ReadExclusions(lines[..k]);
      var x :- ReadExclusion(lines[k], k + 1);
      if FindExclusion(front, x.name) < |front| then Err else Ok(front + [x])
  }

  /** The four leading lines, decoded into an otherwise blank record. */
  function ReadHead(lines: seq<string>): Result<Record>
    requires |lines| == 4
  {
    if lines[0] != "version=1" then Err
    else
      var observed :- ReadNumber(lines[1], "observed_at");
      var window :- ReadNumber(lines[2], "window_start");
      var count :- ReadNumber(lines[3], "attempt_count");
      if count > MAX_ATTEMPTS then Err
      else Ok(Blank.(loaded := true, observed := observed, windowStart := window, attemptCount := count))
  }

  function ReadCredential(lines: seq<string>): Result<Identity>
    requires |lines| == 4
  {
    var device :- ReadNumber(lines[0], "credential_device");
    var inode :- ReadNumber(lines[1], "credential_inode");
    var mtime :- ReadNumber(lines[2], "credential_mtime");
    var size :- ReadNumber(lines[3], "credential_size");
    Ok(Identity(device, inode, mtime, size))
  }

  datatype Body = Body(backoffUntil: nat, failureClass: FailureClass, credential: Identity,
                       configuredDevice: string, excludeCount: nat)

  function ReadBody(lines: seq<string>): Result<Body>
    requires |lines| == 8
  {
    var backoff :- ReadNumber(lines[0], "backoff_until");
    var failure :- ReadField(lines[1], "failure_class");
    if ClassNamed(failure).None? then Err
    else
      var credential :- ReadCredential(lines[2..6]);
      var device :- ReadField(lines[6], "configured_device");
      var count :- ReadNumber(lines[7], "exclude_count");
      if count > MAX_EXCLUSIONS then Err
      else Ok(Body(backoff, ClassNamed(failure).value, credential, device, count))
  }

  function Decode(lines: seq<string>): Result<Record> {
    if !(MIN_LINES <= |lines| <= MAX_LINES) || exists i :: 0 <= i < |lines| && |lines[i]| > MAX_LINE then Err
    else
      var head :- ReadHead(lines[..4]);
      var offset := 4 + head.attemptCount;
      if |lines| < offset + 8 then Err
      else
        var attempts :- ReadAttempts(lines[4..offset]);
        var body :- ReadBody(lines[offset..offset + 8]);
        if |lines| != offset + 8 + body.excludeCount then Err
        else
          var exclusions :- ReadExclusions(lines[offset + 8..]);
          Ok(head.(attempts := attempts, backoffUntil := body.backoffUntil, failureClass := body.failureClass,
                   credential := body.credential, configuredDevice := body.configuredDevice,
                   exclusions := exclusions))
  }

  predicate IsStrict(c: char) {
    c == NEWLINE || ' ' <= c <= '~'
  }

  /** Printable ASCII and newlines, ending in a newline. */
  predicate BytesAreStrict(text: string) {
    text != "" && text[|text| - 1] == NEWLINE && forall i :: 0 <= i < |text| ==> IsStrict(text[i])
  }

  function Parse(text: string): Result<Record> {
    if |text| > MAX_TEXT || !BytesAreStrict(text) then Err else Decode(Lines(text))
  }
}
