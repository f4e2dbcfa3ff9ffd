/** The setup transaction record: its meaning, its text and its three accepted versions. */
module SetupJournals {
  import opened Wrappers
  import opened Text

  datatype Operation = Provision | Adopt | ApiUpdate | StaticSwitch | StaticRestore
  {
    predicate IsStatic() { StaticSwitch? || StaticRestore? }
    predicate IsApi() { !IsStatic() }
  }

  datatype Phase =
    | Prepared | ConfigWritten | CredentialWritten | Activating
    | Activated | Verifying | Verified | RolledBack

  datatype SetupJournal = SetupJournal(
    operation: Operation,
    phase: Phase,
    hadKey: bool,
    hadPreManaged: bool,
    keyChanged: bool,
    verifyStarted: nat,
    statusBeforeDev: nat,
    statusBeforeIno: nat)

  datatype Version = V1 | V2 | V3

  const MAX_JOURNAL_BYTES: nat := 512
  const PROOF_DIGITS: nat := 20

  /** The phases one operation may record. */
  function OperationPhases(operation: Operation): set<Phase> {
    match operation
    case StaticSwitch => {Prepared, Activated, Verifying, Verified, RolledBack}
    case StaticRestore => {Prepared, Activating, Activated, Verifying, Verified, RolledBack}
    case _ => {Prepared, ConfigWritten, CredentialWritten, Activated, Verifying, Verified, RolledBack}
  }

  predicate VersionHasPhase(version: Version, phase: Phase) {
    version.V3? || !(phase.Verifying? || phase.RolledBack?)
  }

  predicate IsProofPhase(version: Version, phase: Phase) {
    version.V3? && (phase.Verifying? || phase.Verified?)
  }

  predicate ValidSemantics(version: Version, j: SetupJournal) {
    && VersionHasPhase(version, j.phase)
    && j.phase in OperationPhases(j.operation)
    && !(j.operation.IsStatic() && j.keyChanged)
    && !(j.operation.IsApi() && !j.hadKey && !j.keyChanged)
    && ((j.statusBeforeDev == 0) <==> (j.statusBeforeIno == 0))
    && (IsProofPhase(version, j.phase) <==> j.verifyStarted > 0)
    && (!IsProofPhase(version, j.phase) ==> j.statusBeforeDev == 0 && j.statusBeforeIno == 0)
  }

  predicate InUintRange(n: nat) {
    n < Pow10(PROOF_DIGITS)
  }

  /** The records `render_journal` agrees to write. */
  predicate Renderable(j: SetupJournal) {
    && ValidSemantics(V3, j)
    && InUintRange(j.verifyStarted) && InUintRange(j.statusBeforeDev) && InUintRange(j.statusBeforeIno)
  }

  // ----------------------------------------------------------------- names

  function OperationName(operation: Operation): string {
    match operation
    case Provision => "provision"
    case Adopt => "adopt"
    case ApiUpdate => "api-update"
    case StaticSwitch => "static"
    case StaticRestore => "static-restore"
  }

  function OperationNamed(name: string): Option<Operation> {
    if name == "provision" then Some(Provision)
    else if name == "adopt" then Some(Adopt)
    else if name == "api-update" then Some(ApiUpdate)
    else if name == "static" then Some(StaticSwitch)
    else if name == "static-restore" then Some(StaticRestore)
    else None
  }

  function PhaseName(phase: Phase): string {
    match phase
    case Prepared => "prepared"
    case ConfigWritten => "config"
    case CredentialWritten => "credential"
    case Activating => "activating"
    case Activated => "activated"
    case Verifying => "verifying"
    case Verified => "verified"
    case RolledBack => "rolled-back"
  }

  function PhaseNamed(name: string): Option<Phase> {
    if name == "prepared" then Some(Prepared)
    else if name == "config" then Some(ConfigWritten)
    else if name == "credential" then Some(CredentialWritten)
    else if name == "activating" then Some(Activating)
    else if name == "activated" then Some(Activated)
    else if name == "verifying" then Some(Verifying)
    else if name == "verified" then Some(Verified)
    else if name == "rolled-back" then Some(RolledBack)
    else None
  }

  function FlagText(flag: bool): string {
    if flag then "1" else "0"
  }

  // ---------------------------------------------------------------- fields

  /** Field names in file order; versions 1 and 2 stop after five and six of them. */
  function FieldNames(): seq<string> {
    ["version", "operation", "phase", "had_key", "had_pre_managed", "key_changed",
     "verify_started", "status_before_dev", "status_before_ino"]
  }

  const FIELD_COUNT: nat := 9

  function FieldsIn(version: Version): nat {
    match version
    case V1 => 5
    case V2 => 6
    case V3 => FIELD_COUNT
  }

  function VersionText(version: Version): string {
    match version
    case V1 => "1"
    case V2 => "2"
    case V3 => "3"
  }

  function VersionNamed(line: string): Option<Version> {
    match FieldValue("version", line)
    case Err => None
    case Ok(text) =>
      if text == "1" then Some(V1)
      else if text == "2" then Some(V2)
      else if text == "3" then Some(V3)
      else None
  }

  function Field(key: string, value: string): string {
    key + "=" + value
  }

  function Fields(keys: seq<string>, values: seq<string>): seq<string>
    requires |keys| == |values|
  {
    seq(|keys|, i requires 0 <= i < |keys| => Field(keys[i], values[i]))
  }

  /** The value of a `key=value` line, refused unless it has exactly one `=` after exactly this key. */
  function FieldValue(key: string, line: string): (r: Result<string>)
    ensures r.Ok? ==> line == Field(key, r.value) && '=' !in r.value
  {
    var k := IndexOf(line, '=');
    if k < |line| && line[..k] == key && '=' !in line[k + 1..] then
      assert line == line[..k] + [line[k]] + line[k + 1..];
      Ok(line[k + 1..])
    else Err
  }

  predicate FieldsReadable(keys: seq<string>, lines: seq<string>) {
    |keys| == |lines| && forall i :: 0 <= i < |keys| ==> FieldValue(keys[i], lines[i]).Ok?
  }

  predicate IsProofNumber(text: string) {
    IsCanonical(text) && |text| <= PROOF_DIGITS
  }

  predicate JournalByte(c: char) {
    c == NEWLINE || ' ' <= c <= '~'
  }

  predicate JournalBytes(text: string) {
    forall i :: 0 <= i < |text| ==> JournalByte(text[i])
  }

  // ------------------------------------------------------------ the codec

  function RenderedValues(j: SetupJournal): (values: seq<string>)
    ensures |values| == FIELD_COUNT
  {
    [
      VersionText(V3), OperationName(j.operation), PhaseName(j.phase),
      FlagText(j.hadKey), FlagText(j.hadPreManaged), FlagText(j.keyChanged),
      ToDecimal(j.verifyStarted), ToDecimal(j.statusBeforeDev), ToDecimal(j.statusBeforeIno)
    ]
  }

  function RenderJournal(j: SetupJournal): Result<string> {
    if Renderable(j) then Ok(JoinLines(Fields(FieldNames(), RenderedValues(j)))) else Err
  }

  /** The record described by readable field values; earlier versions lack the later fields. */
  function JournalOfValues(version: Version, values: seq<string>): Result<SetupJournal>
    requires |values| == FieldsIn(version)
  {
    var changed := if version.V1? then "1" else values[5];
    var started := if version.V3? then values[6] else "0";
    var dev := if version.V3? then values[7] else "0";
    var ino := if version.V3? then values[8] else "0";
    if !IsFlag(values[3]) || !IsFlag(values[4]) || !IsFlag(changed) then Err
    else if !IsProofNumber(started) || !IsProofNumber(dev) || !IsProofNumber(ino) then Err
    else
      match (OperationNamed(values[1]), PhaseNamed(values[2]))
      case (Some(op), Some(ph)) =>
        var j := SetupJournal(op, ph, values[3] == "1", values[4] == "1", changed == "1",
                              DecimalValue(started), DecimalValue(dev), DecimalValue(ino));
        if ValidSemantics(version, j) then Ok(j) else Err
      case _ => Err
  }

  predicate IsFlag(text: string) {
    text == "0" || text == "1"
  }

  /** The version a payload announces, once its bytes, its lines and their keys are acceptable. */
  function PayloadVersion(payload: string): Result<Version> {
    if |payload| > MAX_JOURNAL_BYTES || payload == "" || payload[|payload| - 1] != NEWLINE
       || payload == [NEWLINE] || !JournalBytes(payload)
    then Err
    else
      var lines := Lines(payload);
      if lines == [] then Err
      else
        match VersionNamed(lines[0])
        case None => Err
        case Some(version) =>
          if FieldsReadable(FieldKeys(version), lines) then Ok(version) else Err
  }

  function FieldKeys(version: Version): (keys: seq<string>)
    ensures |keys| == FieldsIn(version)
  {
    FieldNames()[..FieldsIn(version)]
  }

  function FieldValues(keys: seq<string>, lines: seq<string>): (values: seq<string>)
    requires FieldsReadable(keys, lines)
    ensures |values| == |keys|
    ensures forall i :: 0 <= i < |keys| ==> FieldValue(keys[i], lines[i]) == Ok(values[i])
  {
    seq(|keys|, i requires 0 <= i < |keys| => FieldValue(keys[i], lines[i]).value)
  }

  function ReadJournal(payload: string): Result<SetupJournal> {
    var version :- PayloadVersion(payload);
    JournalOfValues(version, FieldValues(FieldKeys(version), Lines(payload)))
  }

  /** Reading a record line by line into a dictionary of fields, as `read_journal` does. */
  method ReadJournalFields(payload: string) returns (r: Result<SetupJournal>)
    ensures r == ReadJournal(payload)
  {
    if |payload| > MAX_JOURNAL_BYTES || payload == "" || payload[|payload| - 1] != NEWLINE
       || payload == [NEWLINE] || !JournalBytes(payload)
    {
      return Err;
    }
    var lines := Lines(payload);
    if lines == [] || VersionNamed(lines[0]).None? {
      return Err;
    }
    var version := VersionNamed(lines[0]).value;
    var order := FieldKeys(version);
    if |lines| != |order| {
      return Err;
    }
    var fields: map<string, string>;
    var readable;
    fields, readable := FillFields(order, lines);
    if !readable {
      return Err;
    }
    var values := seq(|order|, i requires 0 <= i < |order| && order[i] in fields => fields[order[i]]);
    assert values == FieldValues(order, lines);
    r := JournalOfValues(version, values);
  }

  /** The dictionary filled line by line, refused at the first line that is not its key's. */
  method FillFields(order: seq<string>, lines: seq<string>)
    returns (fields: map<string, string>, readable: bool)
    requires |order| == |lines| && order <= FieldNames()
    ensures readable <==> FieldsReadable(order, lines)
    ensures readable ==> forall i :: 0 <= i < |order| ==>
      order[i] in fields && FieldValue(order[i], lines[i]) == Ok(fields[order[i]])
  {
    FieldNamesAreDistinct();
    hide FieldNames;
    fields, readable := map[], true;
    for i := 0 to |order|
      invariant forall j :: 0 <= j < i ==>
        order[j] in fields && FieldValue(order[j], lines[j]) == Ok(fields[order[j]])
    {
      var value := FieldValue(order[i], lines[i]);
      if value.Err? {
        return map[], false;
      }
      assert forall j :: 0 <= j < i ==> order[j] == FieldNames()[j] != FieldNames()[i] == order[i];
      fields := fields[order[i] := value.value];
    }
  }

  // -------------------------------------------------------------- theorems

  predicate PlainText(s: string) {
    forall i :: 0 <= i < |s| ==> ' ' <= s[i] <= '~' && s[i] != '='
  }

  lemma FieldNamesAreDistinct()
    ensures |FieldNames()| == FIELD_COUNT
    ensures forall i, j :: 0 <= i < j < FIELD_COUNT ==> FieldNames()[i] != FieldNames()[j]
  {
  }

  predicate ShortPlain(s: string, limit: nat) {
    PlainText(s) && |s| <= limit
  }

  lemma FirstNamesArePlain()
    ensures ShortPlain("version", 17) && ShortPlain("operation", 17) && ShortPlain("phase", 17)
    ensures ShortPlain("had_key", 17) && ShortPlain("had_pre_managed", 17) && ShortPlain("key_changed", 17)
  {
  }

  lemma ProofNamesArePlain()
    ensures ShortPlain("verify_started", 17) && ShortPlain("status_before_dev", 17)
    ensures ShortPlain("status_before_ino", 17)
  {
  }

  lemma FieldNamesArePlain()
    ensures |FieldNames()| == FIELD_COUNT && FieldNames()[0] == "version"
    ensures forall i :: 0 <= i < FIELD_COUNT ==> PlainText(FieldNames()[i]) && |FieldNames()[i]| <= 17
  {
    hide PlainText;
    FirstNamesArePlain();
    ProofNamesArePlain();
    var names := FieldNames();
    forall i | 0 <= i < FIELD_COUNT ensures ShortPlain(names[i], 17) {
      hide ShortPlain;
    }
  }

  lemma NamesArePlain(operation: Operation, phase: Phase)
    ensures PlainText(OperationName(operation)) && |OperationName(operation)| <= 20
    ensures PlainText(PhaseName(phase)) && |PhaseName(phase)| <= 20
    ensures OperationNamed(OperationName(operation)) == Some(operation)
    ensures PhaseNamed(PhaseName(phase)) == Some(phase)
  {
    OperationIsPlain(operation);
    PhaseIsPlain(phase);
    hide OperationName, PhaseName, OperationNamed, PhaseNamed, PlainText;
  }

  lemma OperationIsPlain(operation: Operation)
    ensures PlainText(OperationName(operation)) && |OperationName(operation)| <= 20
    ensures OperationNamed(OperationName(operation)) == Some(operation)
  {
  }

  lemma PhaseIsPlain(phase: Phase)
    ensures PlainText(PhaseName(phase)) && |PhaseName(phase)| <= 20
    ensures PhaseNamed(PhaseName(phase)) == Some(phase)
  {
  }

  lemma NamesAreInverse(operation: string, phase: string)
    ensures OperationNamed(operation).Some? ==> OperationName(OperationNamed(operation).value) == operation
    ensures PhaseNamed(phase).Some? ==> PhaseName(PhaseNamed(phase).value) == phase
  {
    OperationIsNamed(operation);
    PhaseIsNamed(phase);
    hide OperationName, PhaseName, OperationNamed, PhaseNamed;
  }

  lemma OperationIsNamed(operation: string)
    ensures OperationNamed(operation).Some? ==> OperationName(OperationNamed(operation).value) == operation
  {
  }

  lemma PhaseIsNamed(phase: string)
    ensures PhaseNamed(phase).Some? ==> PhaseName(PhaseNamed(phase).value) == phase
  {
  }

  lemma ProofNumberText(n: nat)
    requires InUintRange(n)
    ensures IsProofNumber(ToDecimal(n)) && PlainText(ToDecimal(n)) && DecimalValue(ToDecimal(n)) == n
  {
    DecimalRoundTrip(n);
    DecimalLength(n, PROOF_DIGITS);
  }

  lemma ProofNumberIsRendering(text: string)
    requires IsProofNumber(text)
    ensures ToDecimal(DecimalValue(text)) == text && InUintRange(DecimalValue(text))
  {
    CanonicalIsRendering(text);
    DecimalBounds(text);
    Pow10Monotone(|text|, PROOF_DIGITS);
  }

  /** A plain key and a plain value make one line from which the value is read back. */
  lemma FieldIsReadable(key: string, value: string)
    requires PlainText(key) && PlainText(value)
    ensures FieldValue(key, Field(key, value)) == Ok(value)
    ensures SingleLine(Field(key, value)) && JournalBytes(Field(key, value))
    ensures |Field(key, value)| == |key| + 1 + |value|
  {
    IndexOfPrefix(key, '=', value);
    var line := Field(key, value);
    assert line == key + ['='] + value;
    assert line[..|key|] == key && line[|key| + 1..] == value;
  }

  lemma {:induction false} JoinBytes(lines: seq<string>)
    requires forall i :: 0 <= i < |lines| ==> JournalBytes(lines[i])
    ensures JournalBytes(JoinLines(lines))
  {
    if lines != [] {
      JoinBytes(lines[1..]);
    }
  }

  lemma FlagsArePlain(flag: bool)
    ensures ShortPlain(FlagText(flag), 20) && ShortPlain(VersionText(V3), 20)
  {
  }

  lemma RenderedValuesArePlain(j: SetupJournal)
    requires Renderable(j)
    ensures forall i :: 0 <= i < FIELD_COUNT ==>
      PlainText(RenderedValues(j)[i]) && |RenderedValues(j)[i]| <= 20
  {
    hide OperationName, PhaseName, ToDecimal, PlainText, FlagText, VersionText;
    NamesArePlain(j.operation, j.phase);
    FlagsArePlain(j.hadKey);
    FlagsArePlain(j.hadPreManaged);
    FlagsArePlain(j.keyChanged);
    ProofNumberText(j.verifyStarted);
    ProofNumberText(j.statusBeforeDev);
    ProofNumberText(j.statusBeforeIno);
    var values := RenderedValues(j);
    assert ShortPlain(values[1], 20) && ShortPlain(values[2], 20);
    assert ShortPlain(values[6], 20) && ShortPlain(values[7], 20) && ShortPlain(values[8], 20);
    forall i | 0 <= i < FIELD_COUNT ensures ShortPlain(values[i], 20) {
      hide ShortPlain;
    }
  }

  /** Plain keys and values make a text whose lines give the values back. */
  lemma FieldsAreReadable(keys: seq<string>, values: seq<string>)
    requires |keys| == |values|
    requires forall i :: 0 <= i < |keys| ==> PlainText(keys[i]) && |keys[i]| <= 17
    requires forall i :: 0 <= i < |keys| ==> PlainText(values[i]) && |values[i]| <= 20
    ensures Lines(JoinLines(Fields(keys, values))) == Fields(keys, values)
    ensures FieldsReadable(keys, Fields(keys, values))
    ensures FieldValues(keys, Fields(keys, values)) == values
    ensures JournalBytes(JoinLines(Fields(keys, values)))
    ensures |JoinLines(Fields(keys, values))| <= |keys| * 39
  {
    hide FieldValue, JournalBytes, PlainText, SingleLine, Lines, JoinLines;
    var lines := Fields(keys, values);
    forall i | 0 <= i < |keys|
      ensures FieldValue(keys[i], lines[i]) == Ok(values[i])
      ensures SingleLine(lines[i]) && JournalBytes(lines[i]) && |lines[i]| <= 38
    {
      FieldIsReadable(keys[i], values[i]);
    }
    LinesOfJoin(lines);
    JoinLength(lines, 38);
    JoinBytes(lines);
    assert FieldValues(keys, lines) == values;
  }

  /** A rendering announces version 3, gives its values back and stays inside the size limit. */
  lemma RenderingIsReadable(j: SetupJournal)
    requires Renderable(j)
    ensures var payload := RenderJournal(j).value;
            PayloadVersion(payload) == Ok(V3) && |payload| <= MAX_JOURNAL_BYTES
            && FieldValues(FieldKeys(V3), Lines(payload)) == RenderedValues(j)
  {
    FieldNamesArePlain();
    RenderedValuesArePlain(j);
    var keys, values := FieldNames(), RenderedValues(j);
    assert values[0] == "3";
    hide FieldNames, RenderedValues, Renderable, FieldValue, JournalBytes, PlainText, Lines, JoinLines, Field;
    assert FieldKeys(V3) == keys;
    FieldsAreReadable(keys, values);
    var payload := JoinLines(Fields(keys, values));
    assert VersionNamed(Fields(keys, values)[0]) == Some(V3);
    JoinedTail(Fields(keys, values));
    FirstLineIsNotEmpty(keys[0], values[0]);
  }

  lemma FirstLineIsNotEmpty(key: string, value: string)
    ensures |Field(key, value)| > 0
  {
  }

  /** A text of at least one nonempty line is longer than a newline and ends with one. */
  lemma JoinedTail(lines: seq<string>)
    requires lines != []
    ensures var text := JoinLines(lines);
            |text| > |lines[0]| && text[|text| - 1] == NEWLINE
  {
    if |lines| > 1 {
      JoinedTail(lines[1..]);
    }
  }

  /** Reading a rendered record gives that record back. */
  lemma RoundTrip(j: SetupJournal)
    requires Renderable(j)
    ensures RenderJournal(j).Ok? && ReadJournal(RenderJournal(j).value) == Ok(j)
  {
    RenderingIsReadable(j);
    ValuesDescribe(j);
    hide RenderedValues, JournalOfValues, PayloadVersion, FieldKeys, FieldValues, Lines, JoinLines, Fields, FieldNames;
  }

  lemma ValuesDescribe(j: SetupJournal)
    requires Renderable(j)
    ensures JournalOfValues(V3, RenderedValues(j)) == Ok(j)
  {
    hide OperationName, PhaseName, OperationNamed, PhaseNamed, ToDecimal, DecimalValue, ValidSemantics, IsProofNumber;
    NamesArePlain(j.operation, j.phase);
    ProofNumberText(j.verifyStarted);
    ProofNumberText(j.statusBeforeDev);
    ProofNumberText(j.statusBeforeIno);
  }

  /** An accepted version-3 payload is byte for byte the rendering of the record it decodes to. */
  lemma AcceptedIsRendering(payload: string)
    requires PayloadVersion(payload) == Ok(V3) && ReadJournal(payload).Ok?
    ensures RenderJournal(ReadJournal(payload).value) == Ok(payload)
    ensures |payload| <= MAX_JOURNAL_BYTES
  {
    hide FieldNames, RenderedValues, PayloadVersion, JournalOfValues, Lines, JoinLines, Fields, Renderable,
      FieldsReadable, VersionNamed, FieldKeys;
    var j, lines := ReadJournal(payload).value, Lines(payload);
    AcceptedRenders(payload);
    AcceptedLines(payload);
    var values := FieldValues(FieldKeys(V3), lines);
    VersionIsFirst(lines);
    AcceptedValues(values, j);
    ReadableFields(FieldKeys(V3), lines);
    JoinOfLines(payload);
    AllKeys();
  }

  lemma AllKeys()
    ensures FieldKeys(V3) == FieldNames()
  {
    FieldNamesArePlain();
    hide FieldNames;
  }

  lemma AcceptedLines(payload: string)
    requires PayloadVersion(payload) == Ok(V3)
    ensures FieldsReadable(FieldKeys(V3), Lines(payload)) && Lines(payload) != []
    ensures VersionNamed(Lines(payload)[0]) == Some(V3)
    ensures Terminated(payload) && |payload| <= MAX_JOURNAL_BYTES
  {
    hide FieldNames, Lines, JournalBytes, FieldsReadable, FieldKeys, VersionNamed;
  }

  lemma VersionIsFirst(lines: seq<string>)
    requires FieldsReadable(FieldKeys(V3), lines) && VersionNamed(lines[0]) == Some(V3)
    ensures FieldValues(FieldKeys(V3), lines)[0] == "3"
  {
    FieldNamesArePlain();
    hide FieldNames, FieldValue;
  }

  /** Readable lines are their keys with their values. */
  lemma ReadableFields(keys: seq<string>, lines: seq<string>)
    requires FieldsReadable(keys, lines)
    ensures lines == Fields(keys, FieldValues(keys, lines))
  {
    hide Field, FieldValue;
  }

  lemma AcceptedRenders(payload: string)
    requires PayloadVersion(payload) == Ok(V3) && ReadJournal(payload).Ok?
    ensures Renderable(ReadJournal(payload).value)
  {
    AcceptedNumbersFit(payload);
    AcceptedSemantics(payload);
    hide PayloadVersion, ReadJournal, ValidSemantics;
  }

  lemma AcceptedValues(values: seq<string>, j: SetupJournal)
    requires |values| == FIELD_COUNT && values[0] == "3" && JournalOfValues(V3, values) == Ok(j)
    ensures values == RenderedValues(j)
  {
    hide OperationName, PhaseName, OperationNamed, PhaseNamed, ToDecimal, DecimalValue, ValidSemantics;
    NamesAreInverse(values[1], values[2]);
    ProofNumberIsRendering(values[6]);
    ProofNumberIsRendering(values[7]);
    ProofNumberIsRendering(values[8]);
  }

  /** The records recovery writes next, from a record of any version. */
  function RolledBackOf(j: SetupJournal): SetupJournal {
    j.(phase := RolledBack, verifyStarted := 0, statusBeforeDev := 0, statusBeforeIno := 0)
  }

  function VerifyingOf(j: SetupJournal, started: nat, dev: nat, ino: nat): SetupJournal {
    j.(phase := Verifying, verifyStarted := started, statusBeforeDev := dev, statusBeforeIno := ino)
  }

  function VerifiedOf(j: SetupJournal): SetupJournal {
    j.(phase := Verified)
  }

  /** Every proof number of an accepted record fits the field it is written back to. */
  lemma AcceptedNumbersFit(payload: string)
    requires ReadJournal(payload).Ok?
    ensures var j := ReadJournal(payload).value;
            InUintRange(j.verifyStarted) && InUintRange(j.statusBeforeDev) && InUintRange(j.statusBeforeIno)
  {
    var version := PayloadVersion(payload).value;
    var values := FieldValues(FieldKeys(version), Lines(payload));
    ProofNumberIsRendering("0");
    if version.V3? {
      ProofNumberIsRendering(values[6]);
      ProofNumberIsRendering(values[7]);
      ProofNumberIsRendering(values[8]);
    }
    hide FieldNames, OperationNamed, PhaseNamed, ToDecimal, PayloadVersion;
  }

  lemma AcceptedSemantics(payload: string)
    requires ReadJournal(payload).Ok?
    ensures PayloadVersion(payload).Ok?
    ensures ValidSemantics(PayloadVersion(payload).value, ReadJournal(payload).value)
    ensures InUintRange(0) && Renderable(RolledBackOf(ReadJournal(payload).value))
  {
    hide FieldNames, OperationNamed, PhaseNamed, PayloadVersion;
  }

  /** From any accepted record each successor recovery writes is itself readable again: the
      rolled-back record always; the verifying record exactly for a positive clock and an identity
      that is wholly present or wholly absent; the verified record exactly from a verifying or
      verified one of version 3. */
  lemma SuccessorsAreAccepted(payload: string, started: nat, dev: nat, ino: nat)
    requires ReadJournal(payload).Ok?
    requires InUintRange(started) && InUintRange(dev) && InUintRange(ino)
    ensures var j := ReadJournal(payload).value;
            Renderable(RolledBackOf(j))
            && ReadJournal(RenderJournal(RolledBackOf(j)).value) == Ok(RolledBackOf(j))
    ensures var j := ReadJournal(payload).value;
            Renderable(VerifyingOf(j, started, dev, ino)) <==>
            started > 0 && ((dev == 0) <==> (ino == 0))
    ensures var j := ReadJournal(payload).value;
            Renderable(VerifiedOf(j)) <==>
            PayloadVersion(payload) == Ok(V3) && (j.phase.Verifying? || j.phase.Verified?)
  {
    hide ReadJournal, PayloadVersion, RenderJournal;
    AcceptedNumbersFit(payload);
    AcceptedSemantics(payload);
    RoundTrip(RolledBackOf(ReadJournal(payload).value));
  }

  /** A version-1 record is accepted exactly when its flags are flags, its operation is an API operation and its phase
      one version 1 knows and the operation has: the missing `key_changed` reads as 1, which a static operation may
      not carry. */
  lemma LegacyIsAcceptedExactly(payload: string)
    requires PayloadVersion(payload) == Ok(V1)
    ensures var values := FieldValues(FieldKeys(V1), Lines(payload));
            var op, phase := OperationNamed(values[1]), PhaseNamed(values[2]);
            ReadJournal(payload).Ok? <==>
              && IsFlag(values[3]) && IsFlag(values[4]) && op.Some? && phase.Some?
              && op.value.IsApi() && phase.value in OperationPhases(op.value)
              && !phase.value.Verifying? && !phase.value.RolledBack?
    ensures ReadJournal(payload).Ok? ==> ReadJournal(payload).value.keyChanged
  {
    assert DecimalValue("0") == 0;
    ProofNumberIsRendering("0");
    hide FieldNames, OperationNamed, PhaseNamed, PayloadVersion;
  }
}
