/**
 * The MITRE ATT&CK tables of the report generator and the lookups built on them:
 * the tactics and their kill-chain order, the technique-to-tactic table (a
 * dictionary literal in which some keys occur twice, the later occurrence
 * winning), the technique details, the tools per tactic and the narrative action
 * per technique.
 */
module AttackTables {
  import opened Optional
  import opened Text

  // ---- Tactics ----

  /** The thirteen enterprise tactics, named as in the ATT&CK matrix. */
  datatype Tactic =
    | ResourceDevelopment | InitialAccess | Execution | Persistence | PrivilegeEscalation
    | DefenseEvasion | CredentialAccess | Discovery | LateralMovement | Collection
    | CommandAndControl | Exfiltration | Impact

  /** The tactic's identifier, the key of `MITRE_TACTICS`. */
  function TacticId(t: Tactic): string {
    match t
    case ResourceDevelopment => "TA0042"
    case InitialAccess => "TA0001"
    case Execution => "TA0002"
    case Persistence => "TA0003"
    case PrivilegeEscalation => "TA0004"
    case DefenseEvasion => "TA0005"
    case CredentialAccess => "TA0006"
    case Discovery => "TA0007"
    case LateralMovement => "TA0008"
    case Collection => "TA0009"
    case CommandAndControl => "TA0011"
    case Exfiltration => "TA0010"
    case Impact => "TA0040"
  }

  /** The tactic's display name, the value of `MITRE_TACTICS`. */
  function TacticName(t: Tactic): string {
    match t
    case ResourceDevelopment => "Resource Development"
    case InitialAccess => "Initial Access"
    case Execution => "Execution"
    case Persistence => "Persistence"
    case PrivilegeEscalation => "Privilege Escalation"
    case DefenseEvasion => "Defense Evasion"
    case CredentialAccess => "Credential Access"
    case Discovery => "Discovery"
    case LateralMovement => "Lateral Movement"
    case Collection => "Collection"
    case CommandAndControl => "Command and Control"
    case Exfiltration => "Exfiltration"
    case Impact => "Impact"
  }

  /** `TACTIC_ORDER`: the order in which an attack chain runs through the tactics. */
  const TacticOrder: seq<Tactic> := [
    ResourceDevelopment, InitialAccess, Execution, Persistence, PrivilegeEscalation,
    DefenseEvasion, CredentialAccess, Discovery, LateralMovement, Collection,
    CommandAndControl, Exfiltration, Impact
  ]

  /** `MITRE_TACTICS` read back from an identifier string. */
  function ParseTacticId(id: string): (r: Option<Tactic>)
    ensures r.Some? ==> TacticId(r.value) == id
  {
    if id == "TA0042" then Some(ResourceDevelopment)
    else if id == "TA0001" then Some(InitialAccess)
    else if id == "TA0002" then Some(Execution)
    else if id == "TA0003" then Some(Persistence)
    else if id == "TA0004" then Some(PrivilegeEscalation)
    else if id == "TA0005" then Some(DefenseEvasion)
    else if id == "TA0006" then Some(CredentialAccess)
    else if id == "TA0007" then Some(Discovery)
    else if id == "TA0008" then Some(LateralMovement)
    else if id == "TA0009" then Some(Collection)
    else if id == "TA0011" then Some(CommandAndControl)
    else if id == "TA0010" then Some(Exfiltration)
    else if id == "TA0040" then Some(Impact)
    else None
  }

  /** Every tactic occurs in the order exactly once. */
  lemma TacticOrderFacts()
    ensures |TacticOrder| == 13
    ensures forall t: Tactic :: t in TacticOrder
    ensures forall i, j :: 0 <= i < j < |TacticOrder| ==> TacticOrder[i] != TacticOrder[j]
  {
    forall t: Tactic ensures t in TacticOrder {
      assert TacticOrder[TacticIndex(t)] == t;
    }
    forall i, j | 0 <= i < j < |TacticOrder| ensures TacticOrder[i] != TacticOrder[j] {
      assert TacticIndex(TacticOrder[i]) == i && TacticIndex(TacticOrder[j]) == j;
    }
  }

  /** The identifier names its tactic back: `MITRE_TACTICS` has one key per tactic. */
  lemma TacticIdRoundTrip(t: Tactic)
    ensures ParseTacticId(TacticId(t)) == Some(t)
  {
  }

  /** The position of a tactic in `TACTIC_ORDER`. */
  function TacticIndex(t: Tactic): (i: nat)
    ensures i < |TacticOrder| && TacticOrder[i] == t
  {
    match t
    case ResourceDevelopment => 0
    case InitialAccess => 1
    case Execution => 2
    case Persistence => 3
    case PrivilegeEscalation => 4
    case DefenseEvasion => 5
    case CredentialAccess => 6
    case Discovery => 7
    case LateralMovement => 8
    case Collection => 9
    case CommandAndControl => 10
    case Exfiltration => 11
    case Impact => 12
  }

  /** What a technique lookup yields: a tactic, or the string `"Unknown"`, which the
      report also uses as the key of the group of unmapped techniques. */
  datatype TacticSlot = Known(tactic: Tactic) | Unknown

  /** The slot as the string the report uses. */
  function SlotId(s: TacticSlot): string {
    match s
    case Known(t) => TacticId(t)
    case Unknown => "Unknown"
  }

  /** `MITRE_TACTICS.get(slot, default)`. */
  function SlotName(s: TacticSlot, default: string): string {
    match s
    case Known(t) => TacticName(t)
    case Unknown => default
  }

  // ---- Technique identifiers ----

  predicate IsDigit(c: char) {
    '0' <= c <= '9'
  }

  function Digit(d: nat): char
    requires d < 10
  {
    (d + '0' as int) as char
  }

  function DigitValue(c: char): int {
    c as int - '0' as int
  }

  /** Four decimal digits, zero-padded, and the number they spell. */
  function Pad4(n: nat): string
    requires n < 10000
  {
    [Digit(n / 1000), Digit(n / 100 % 10), Digit(n / 10 % 10), Digit(n % 10)]
  }

  function Pad3(n: nat): string
    requires n < 1000
  {
    [Digit(n / 100), Digit(n / 10 % 10), Digit(n % 10)]
  }

  predicate Digits(s: string) {
    forall i :: 0 <= i < |s| ==> IsDigit(s[i])
  }

  /** The number four (three) decimal digits spell. */
  function Number4(s: string): int
    requires |s| == 4
  {
    1000 * DigitValue(s[0]) + 100 * DigitValue(s[1]) + 10 * DigitValue(s[2]) + DigitValue(s[3])
  }

  function Number3(s: string): int
    requires |s| == 3
  {
    100 * DigitValue(s[0]) + 10 * DigitValue(s[1]) + DigitValue(s[2])
  }

  /** A technique identifier of the tables' shape: `T` and four digits, optionally
      followed by `.` and three digits for a sub-technique. */
  datatype TechniqueKey = TechniqueKey(base: nat, sub: Option<nat>)

  predicate WellFormedKey(k: TechniqueKey) {
    k.base < 10000 && (k.sub.Some? ==> k.sub.value < 1000)
  }

  /** The identifier string a key stands for. */
  function KeyText(k: TechniqueKey): string
    requires WellFormedKey(k)
  {
    ['T'] + Pad4(k.base) + (match k.sub case None => "" case Some(m) => "." + Pad3(m))
  }

  /** Reads an identifier of the tables' shape; any other string is no key. */
  function ParseKey(s: string): Option<TechniqueKey> {
    if |s| >= 5 && s[0] == 'T' && Digits(s[1..5]) then
      var n := Number4(s[1..5]) as nat;
      if |s| == 5 then Some(TechniqueKey(n, None))
      else if |s| == 9 && s[5] == '.' && Digits(s[6..9]) then Some(TechniqueKey(n, Some(Number3(s[6..9]) as nat)))
      else None
    else None
  }

  lemma Pad4Number(n: nat)
    requires n < 10000
    ensures Digits(Pad4(n)) && Number4(Pad4(n)) == n
  {
    assert n / 100 == n / 1000 * 10 + n / 100 % 10;
    assert n / 10 == n / 100 * 10 + n / 10 % 10;
  }

  lemma Pad3Number(n: nat)
    requires n < 1000
    ensures Digits(Pad3(n)) && Number3(Pad3(n)) == n
  {
    assert n / 10 == n / 100 * 10 + n / 10 % 10;
  }

  lemma NumberPad4(s: string)
    requires |s| == 4 && Digits(s)
    ensures 0 <= Number4(s) < 10000 && Pad4(Number4(s)) == s
  {
    var a, b, c, d := DigitValue(s[0]), DigitValue(s[1]), DigitValue(s[2]), DigitValue(s[3]);
    assert IsDigit(s[0]) && IsDigit(s[1]) && IsDigit(s[2]) && IsDigit(s[3]);
    var m := Number4(s);
    assert m / 10 == 100 * a + 10 * b + c && m % 10 == d;
    assert m / 100 == 10 * a + b && m / 100 % 10 == b;
    assert m / 1000 == a;
  }

  lemma NumberPad3(s: string)
    requires |s| == 3 && Digits(s)
    ensures 0 <= Number3(s) < 1000 && Pad3(Number3(s)) == s
  {
    var a, b, c := DigitValue(s[0]), DigitValue(s[1]), DigitValue(s[2]);
    assert IsDigit(s[0]) && IsDigit(s[1]) && IsDigit(s[2]);
    var m := Number3(s);
    assert m / 10 == 10 * a + b && m % 10 == c;
    assert m / 100 == a;
  }

  /** Keys and identifier strings correspond one to one: a lookup by key is a
      lookup by the exact identifier string. */
  lemma KeyTextRoundTrip(k: TechniqueKey)
    requires WellFormedKey(k)
    ensures ParseKey(KeyText(k)) == Some(k)
  {
    var s := KeyText(k);
    Pad4Number(k.base);
    assert s[1..5] == Pad4(k.base);
    if k.sub.Some? {
      Pad3Number(k.sub.value);
      assert s[6..9] == Pad3(k.sub.value);
    }
  }

  lemma ParseKeyRoundTrip(s: string)
    requires ParseKey(s).Some?
    ensures WellFormedKey(ParseKey(s).value) && KeyText(ParseKey(s).value) == s
  {
    NumberPad4(s[1..5]);
    if |s| == 9 {
      NumberPad3(s[6..9]);
      assert s == ['T'] + s[1..5] + "." + s[6..9];
    } else {
      assert s == ['T'] + s[1..5];
    }
  }

  /** `technique_id.split('.')[0]`: the identifier without its sub-technique part. */
  function BaseTechnique(id: string): string {
    Split(id, ".")[0]
  }

  /** The base is the part of the identifier before its first `.`, or all of it. */
  lemma BaseTechniqueFacts(id: string)
    ensures var b := BaseTechnique(id);
            |b| <= |id| && b == id[..|b|] && '.' !in b && (|b| == |id| || id[|b|] == '.')
  {
    var b := BaseTechnique(id);
    match FindFrom(id, ".", 0)
    case None =>
      forall i | 0 <= i < |id| ensures id[i] != '.' {
        assert !Occurs(id, ".", i);
      }
    case Some(i) =>
      assert Occurs(id, ".", i);
      forall j | 0 <= j < i ensures id[j] != '.' {
        assert !Occurs(id, ".", j);
      }
  }

  /** The base is the one prefix free of `.` that is followed by a `.` or ends the
      identifier. */
  lemma BaseIsPrefixBeforeDot(id: string, b: string)
    requires '.' !in b && |b| <= |id| && id[..|b|] == b && (|b| == |id| || id[|b|] == '.')
    ensures BaseTechnique(id) == b
  {
    BaseTechniqueFacts(id);
    var r := BaseTechnique(id);
    assert forall j :: 0 <= j < |b| ==> id[j] == b[j];
    assert forall j :: 0 <= j < |r| ==> id[j] == r[j];
    assert |r| == |b|;
  }

  /** A sub-technique `b.x` has base `b`, and taking the base twice changes nothing. */
  lemma BaseOfSubTechnique(b: string, x: string)
    requires '.' !in b
    ensures BaseTechnique(b + "." + x) == b
    ensures BaseTechnique(b) == b
  {
    BaseIsPrefixBeforeDot(b + "." + x, b);
    BaseIsPrefixBeforeDot(b, b);
  }

  lemma BaseIdempotent(id: string)
    ensures BaseTechnique(BaseTechnique(id)) == BaseTechnique(id)
  {
    BaseTechniqueFacts(id);
    BaseOfSubTechnique(BaseTechnique(id), "");
  }

  /** The base of a sub-technique key's identifier is its parent's identifier. */
  lemma BaseOfKey(k: TechniqueKey)
    requires WellFormedKey(k)
    ensures BaseTechnique(KeyText(k)) == KeyText(TechniqueKey(k.base, None))
  {
    var b := KeyText(TechniqueKey(k.base, None));
    assert '.' !in b by {
      forall i | 0 <= i < |b| ensures b[i] != '.' {
        if i > 0 {
          assert b[i] == Pad4(k.base)[i - 1];
        }
      }
    }
    match k.sub
    case None => BaseOfSubTechnique(b, "");
    case Some(m) =>
      assert KeyText(k) == b + "." + Pad3(m);
      BaseOfSubTechnique(b, Pad3(m));
  }

  // ---- TECHNIQUE_TO_TACTIC ----

  /** The literal, as it is laid out: one group of keys per tactic, in source
      order. Within a group every key maps to the group's tactic; some keys recur
      in a later group. Keys are the numbers of the `T####` strings. */
  const ResourceDevelopmentKeys: set<nat> := {1583, 1584, 1585, 1586, 1587, 1588, 1608}
  const InitialAccessKeys: set<nat> := {1566, 1190, 1199, 1091, 1195, 1200, 1078, 1133, 1189}
  const ExecutionKeys: set<nat> := {1059, 1203, 1127, 1204, 1053, 1129, 1609, 1610, 1047, 1106, 1559}
  const PersistenceKeys: set<nat> := {1547, 1136, 1543, 1574, 1546, 1505, 1137, 1098, 1176, 1554, 1133}
  const PrivilegeEscalationKeys: set<nat> := {1055, 1548, 1134, 1484, 1068, 1611, 1574, 1053, 1543, 1546, 1547}
  const DefenseEvasionKeys: set<nat> := {1140, 1070, 1027, 1562, 1055, 1036, 1218, 1620, 1134, 1574, 1112, 1127}
  const CredentialAccessKeys: set<nat> := {1003, 1110, 1555, 1212, 1552, 1040, 1556, 1558, 1111, 1621}
  const DiscoveryKeys: set<nat> := {1018, 1082, 1083, 1087, 1057, 1135, 1046, 1016, 1033, 1124, 1007, 1012, 1049, 1069, 1201}
  const LateralMovementKeys: set<nat> := {1021, 1210, 1534, 1570, 1550, 1563, 1080, 1072, 1091, 1051}
  const CollectionKeys: set<nat> := {1005, 1074, 1039, 1025, 1113, 1114, 1123, 1560, 1119, 1115, 1125}
  const CommandAndControlKeys: set<nat> := {1573, 1008, 1071, 1090, 1568, 1105, 1102, 1095, 1132, 1001, 1104}
  const ExfiltrationKeys: set<nat> := {1029, 1041, 1011, 1052, 1567, 1020, 1030, 1048, 1022, 1537}
  const ImpactKeys: set<nat> := {1485, 1486, 1491, 1565, 1499, 1498, 1529, 1561, 1490, 1657}

  const TechniqueBlocks: seq<(Tactic, set<nat>)> := [
    (ResourceDevelopment, ResourceDevelopmentKeys),
    (InitialAccess, InitialAccessKeys),
    (Execution, ExecutionKeys),
    (Persistence, PersistenceKeys),
    (PrivilegeEscalation, PrivilegeEscalationKeys),
    (DefenseEvasion, DefenseEvasionKeys),
    (CredentialAccess, CredentialAccessKeys),
    (Discovery, DiscoveryKeys),
    (LateralMovement, LateralMovementKeys),
    (Collection, CollectionKeys),
    (CommandAndControl, CommandAndControlKeys),
    (Exfiltration, ExfiltrationKeys),
    (Impact, ImpactKeys)
  ]

  /** A dictionary literal's lookup, group by group: the LAST group holding the
      key decides, as Python keeps the later of two equal keys in a `{...}` display. */
  function BlockLookup(blocks: seq<(Tactic, set<nat>)>, n: nat): Option<Tactic> {
    if blocks == [] then None
    else if n in blocks[|blocks| - 1].1 then Some(blocks[|blocks| - 1].0)
    else BlockLookup(blocks[..|blocks| - 1], n)
  }

  /** The lookup misses exactly when no group holds the key, and finds `t` exactly
      when some group of tactic `t` holds it and no later group does. */
  lemma {:induction false} BlockLookupSpec(blocks: seq<(Tactic, set<nat>)>, n: nat, t: Tactic)
    ensures BlockLookup(blocks, n).None? <==> forall i :: 0 <= i < |blocks| ==> n !in blocks[i].1
    ensures BlockLookup(blocks, n) == Some(t) <==> LastHolder(blocks, n, t)
    decreases |blocks|
  {
    if blocks != [] {
      var last := |blocks| - 1;
      var init := blocks[..last];
      BlockLookupSpec(init, n, t);
      if n in blocks[last].1 {
        assert !(forall i :: 0 <= i < |blocks| ==> n !in blocks[i].1);
        if LastHolder(blocks, n, t) {
          var i :| 0 <= i < |blocks| && blocks[i].0 == t && n in blocks[i].1 && NoneAfter(blocks, n, i);
          assert i == last;
        }
        if blocks[last].0 == t {
          assert NoneAfter(blocks, n, last);
        }
      } else {
        LastHolderInit(blocks, n, t);
        assert forall i :: 0 <= i < last ==> init[i] == blocks[i];
      }
    }
  }

  predicate NoneAfter(blocks: seq<(Tactic, set<nat>)>, n: nat, i: nat) {
    forall j :: i < j < |blocks| ==> n !in blocks[j].1
  }

  predicate LastHolder(blocks: seq<(Tactic, set<nat>)>, n: nat, t: Tactic) {
    exists i :: 0 <= i < |blocks| && blocks[i].0 == t && n in blocks[i].1 && NoneAfter(blocks, n, i)
  }

  lemma LastHolderInit(blocks: seq<(Tactic, set<nat>)>, n: nat, t: Tactic)
    requires blocks != [] && n !in blocks[|blocks| - 1].1
    ensures LastHolder(blocks, n, t) <==> LastHolder(blocks[..|blocks| - 1], n, t)
  {
    var init := blocks[..|blocks| - 1];
    if LastHolder(blocks, n, t) {
      var i :| 0 <= i < |blocks| && blocks[i].0 == t && n in blocks[i].1 && NoneAfter(blocks, n, i);
      NoneAfterInit(blocks, n, i);
    }
    if LastHolder(init, n, t) {
      var i :| 0 <= i < |init| && init[i].0 == t && n in init[i].1 && NoneAfter(init, n, i);
      NoneAfterInit(blocks, n, i);
    }
  }

  lemma NoneAfterInit(blocks: seq<(Tactic, set<nat>)>, n: nat, i: nat)
    requires i < |blocks| - 1 || (i == |blocks| - 1 && n in blocks[i].1)
    requires n !in blocks[|blocks| - 1].1
    ensures i < |blocks| - 1
    ensures blocks[..|blocks| - 1][i] == blocks[i]
    ensures NoneAfter(blocks, n, i) <==> NoneAfter(blocks[..|blocks| - 1], n, i)
  {
    var init := blocks[..|blocks| - 1];
    assert forall j :: 0 <= j < |init| ==> init[j] == blocks[j];
  }

  /** `TECHNIQUE_TO_TACTIC[key]` by number: the groups are tried from the last one
      back, so a key that occurs twice takes the tactic of its later group. */
  function TechniqueTactic(n: nat): Option<Tactic> {
    if n in ImpactKeys then Some(Impact)
    else if n in ExfiltrationKeys then Some(Exfiltration)
    else if n in CommandAndControlKeys then Some(CommandAndControl)
    else if n in CollectionKeys then Some(Collection)
    else if n in LateralMovementKeys then Some(LateralMovement)
    else if n in DiscoveryKeys then Some(Discovery)
    else if n in CredentialAccessKeys then Some(CredentialAccess)
    else if n in DefenseEvasionKeys then Some(DefenseEvasion)
    else if n in PrivilegeEscalationKeys then Some(PrivilegeEscalation)
    else if n in PersistenceKeys then Some(Persistence)
    else if n in ExecutionKeys then Some(Execution)
    else if n in InitialAccessKeys then Some(InitialAccess)
    else if n in ResourceDevelopmentKeys then Some(ResourceDevelopment)
    else None
  }

  lemma BlockLookupSnoc(blocks: seq<(Tactic, set<nat>)>, b: (Tactic, set<nat>), n: nat)
    ensures BlockLookup(blocks + [b], n) == if n in b.1 then Some(b.0) else BlockLookup(blocks, n)
  {
    assert (blocks + [b])[..|blocks|] == blocks;
  }

  /** The if-chain is the literal's lookup. */
  lemma TechniqueTacticIsLookup(n: nat)
    ensures TechniqueTactic(n) == BlockLookup(TechniqueBlocks, n)
  {
    var p1 := [] + [(ResourceDevelopment, ResourceDevelopmentKeys)];
    BlockLookupSnoc([], (ResourceDevelopment, ResourceDevelopmentKeys), n);
    var p2 := p1 + [(InitialAccess, InitialAccessKeys)];
    BlockLookupSnoc(p1, (InitialAccess, InitialAccessKeys), n);
    var p3 := p2 + [(Execution, ExecutionKeys)];
    BlockLookupSnoc(p2, (Execution, ExecutionKeys), n);
    var p4 := p3 + [(Persistence, PersistenceKeys)];
    BlockLookupSnoc(p3, (Persistence, PersistenceKeys), n);
    var p5 := p4 + [(PrivilegeEscalation, PrivilegeEscalationKeys)];
    BlockLookupSnoc(p4, (PrivilegeEscalation, PrivilegeEscalationKeys), n);
    var p6 := p5 + [(DefenseEvasion, DefenseEvasionKeys)];
    BlockLookupSnoc(p5, (DefenseEvasion, DefenseEvasionKeys), n);
    var p7 := p6 + [(CredentialAccess, CredentialAccessKeys)];
    BlockLookupSnoc(p6, (CredentialAccess, CredentialAccessKeys), n);
    var p8 := p7 + [(Discovery, DiscoveryKeys)];
    BlockLookupSnoc(p7, (Discovery, DiscoveryKeys), n);
    var p9 := p8 + [(LateralMovement, LateralMovementKeys)];
    BlockLookupSnoc(p8, (LateralMovement, LateralMovementKeys), n);
    var p10 := p9 + [(Collection, CollectionKeys)];
    BlockLookupSnoc(p9, (Collection, CollectionKeys), n);
    var p11 := p10 + [(CommandAndControl, CommandAndControlKeys)];
    BlockLookupSnoc(p10, (CommandAndControl, CommandAndControlKeys), n);
    var p12 := p11 + [(Exfiltration, ExfiltrationKeys)];
    BlockLookupSnoc(p11, (Exfiltration, ExfiltrationKeys), n);
    var p13 := p12 + [(Impact, ImpactKeys)];
    BlockLookupSnoc(p12, (Impact, ImpactKeys), n);
    assert TechniqueBlocks == p13;
  }

  /** `TECHNIQUE_TO_TACTIC.get(base, "Unknown")`: only a `T####` string can be a key. */
  function BaseTactic(base: string): TacticSlot {
    match ParseKey(base)
    case Some(TechniqueKey(n, None)) => (match TechniqueTactic(n) case Some(t) => Known(t) case None => Unknown)
    case _ => Unknown
  }

  /** `get_tactic_from_technique`. */
  function TacticOf(techniqueId: string): TacticSlot {
    BaseTactic(BaseTechnique(techniqueId))
  }

  /** The tactic depends only on the base identifier: a sub-technique belongs to
      its parent's tactic, and so does every identifier with that base. */
  lemma TacticOfBase(id: string)
    ensures TacticOf(id) == TacticOf(BaseTechnique(id))
  {
    BaseIdempotent(id);
  }

  lemma TacticOfSubTechnique(b: string, x: string)
    requires '.' !in b
    ensures TacticOf(b + "." + x) == TacticOf(b)
  {
    BaseOfSubTechnique(b, x);
  }

  /** An identifier is mapped exactly when its base is the key string `T####` of a
      number some group holds, and then to the tactic of the last such group. */
  lemma TacticOfSpec(id: string, t: Tactic)
    ensures TacticOf(id) == Known(t) <==>
              exists n :: n < 10000 && BaseTechnique(id) == KeyText(TechniqueKey(n, None)) &&
                          LastHolder(TechniqueBlocks, n, t)
  {
    var b := BaseTechnique(id);
    if TacticOf(id) == Known(t) {
      var n := ParseKey(b).value.base;
      ParseKeyRoundTrip(b);
      TechniqueTacticIsLookup(n);
      BlockLookupSpec(TechniqueBlocks, n, t);
    }
    if exists n :: n < 10000 && b == KeyText(TechniqueKey(n, None)) && LastHolder(TechniqueBlocks, n, t) {
      var n :| n < 10000 && b == KeyText(TechniqueKey(n, None)) && LastHolder(TechniqueBlocks, n, t);
      KeyTextRoundTrip(TechniqueKey(n, None));
      TechniqueTacticIsLookup(n);
      BlockLookupSpec(TechniqueBlocks, n, t);
    }
  }

  /** The keys that occur twice in the literal take the tactic of their later
      occurrence (keys by number: 1133 is `T1133`). */
  lemma DuplicateKeysLastWins()
    ensures 1133 in InitialAccessKeys && TechniqueTactic(1133) == Some(Persistence)
    ensures 1091 in InitialAccessKeys && TechniqueTactic(1091) == Some(LateralMovement)
  {
  }

  lemma DefenseEvasionDuplicates()
    ensures 1574 in PersistenceKeys && TechniqueTactic(1574) == Some(DefenseEvasion)
    ensures 1055 in PrivilegeEscalationKeys && TechniqueTactic(1055) == Some(DefenseEvasion)
    ensures 1127 in ExecutionKeys && TechniqueTactic(1127) == Some(DefenseEvasion)
  {
  }

  lemma PrivilegeEscalationDuplicates()
    ensures 1053 in ExecutionKeys && TechniqueTactic(1053) == Some(PrivilegeEscalation)
    ensures 1547 in PersistenceKeys && TechniqueTactic(1547) == Some(PrivilegeEscalation)
  {
  }

  // ---- Technique details and tools ----

  datatype TechniqueInfo = TechniqueInfo(description: string, implementation: seq<string>, tools: seq<string>)

  /** The entries of `TECHNIQUE_DETAILS`, named after their techniques. */
  datatype DetailEntry =
    | AcquireDomains | SpearphishingAttachment | CredentialDumping | ScriptInterpreter | ProcessInjection

  /** The description, implementation methods and tools an entry lists. */
  function DetailInfo(d: DetailEntry): TechniqueInfo {
    match d
    case AcquireDomains => TechniqueInfo(
      "Adversaries acquire domains for malicious purposes including phishing, drive-by compromise, and command and control.",
      ["Domain purchasing", "Typosquatting", "IDN homograph attacks", "Expired domain reuse"],
      ["Domain registrars", "WHOIS privacy services", "DNS management tools"])
    case SpearphishingAttachment => TechniqueInfo(
      "Adversaries send spearphishing emails with malicious attachments to gain initial access.",
      ["Malicious documents", "Macro-enabled files", "Archive attachments", "PDF exploits"],
      ["Email clients", "Document generators", "Exploit kits", "Social engineering"])
    case CredentialDumping => TechniqueInfo(
      "Adversaries attempt to dump credentials from operating system credential storage.",
      ["LSASS dumping", "Registry extraction", "Memory scraping", "Hash extraction"],
      ["Mimikatz", "ProcDump", "Impacket", "LaZagne", "Windows Credential Editor"])
    case ScriptInterpreter => TechniqueInfo(
      "Adversaries abuse command and script interpreters to execute commands and scripts.",
      ["PowerShell scripts", "Command line execution", "Batch files", "Shell commands"],
      ["PowerShell", "cmd.exe", "bash", "Python", "JavaScript"])
    case ProcessInjection => TechniqueInfo(
      "Adversaries inject code into processes to evade process-based defenses and elevate privileges.",
      ["DLL injection", "Process hollowing", "Thread execution hijacking", "Portable executable injection"],
      ["Reflective DLL loading", "Process injection frameworks", "Manual mapping tools"])
  }

  /** `TECHNIQUE_DETAILS`, by key. */
  function DetailsFor(k: TechniqueKey): Option<DetailEntry> {
    if k == TechniqueKey(1583, Some(1)) then Some(AcquireDomains)
    else if k == TechniqueKey(1566, Some(1)) then Some(SpearphishingAttachment)
    else if k == TechniqueKey(1003, None) then Some(CredentialDumping)
    else if k == TechniqueKey(1059, None) then Some(ScriptInterpreter)
    else if k == TechniqueKey(1055, None) then Some(ProcessInjection)
    else None
  }

  /** `TECHNIQUE_DETAILS.get(id)`. */
  function DetailsOf(id: string): Option<DetailEntry> {
    match ParseKey(id)
    case Some(k) => DetailsFor(k)
    case None => None
  }

  /** `COMMON_TOOLS`, keyed by the tactics `_get_tools_by_tactic` maps. */
  const CredentialAccessTools: seq<string> := ["Mimikatz", "LaZagne", "Impacket", "BloodHound", "Rubeus"]
  const ExecutionTools: seq<string> := ["PowerShell", "cmd.exe", "Cobalt Strike", "Metasploit", "Empire"]
  const PersistenceTools: seq<string> := ["Scheduled tasks", "Registry modifications", "Service creation", "WMI subscriptions"]
  const LateralMovementTools: seq<string> := ["PsExec", "WMI", "PowerShell remoting", "RDP", "SSH"]
  const DefenseEvasionTools: seq<string> := ["Process injection", "AMSI bypass", "Obfuscation", "Living off the land binaries"]
  const VariousTools: seq<string> := ["Various tools"]

  /** The five tactics that have a tool list of their own. */
  predicate HasTools(s: TacticSlot) {
    s.Known? && s.tactic in {CredentialAccess, Execution, Persistence, LateralMovement, DefenseEvasion}
  }

  /** `_get_tools_by_tactic`. */
  function ToolsByTactic(s: TacticSlot): (tools: seq<string>)
    ensures !HasTools(s) <==> tools == VariousTools
    ensures 1 <= |tools| <= 5
  {
    match s
    case Known(CredentialAccess) => CredentialAccessTools
    case Known(Execution) => ExecutionTools
    case Known(Persistence) => PersistenceTools
    case Known(LateralMovement) => LateralMovementTools
    case Known(DefenseEvasion) => DefenseEvasionTools
    case _ => VariousTools
  }

  /** The description made up for a technique of tactic `slot` with no entry. */
  function DefaultInfo(slot: TacticSlot): TechniqueInfo {
    TechniqueInfo(
      "Technique related to " + SlotName(slot, "Unknown") + " phase of the attack.",
      ["Various methods depending on environment"],
      ToolsByTactic(slot))
  }

  /** Where a technique's description comes from: an entry of the table, or the
      default made up from its tactic. */
  datatype Description = Listed(entry: DetailEntry) | ByTactic(slot: TacticSlot)

  function InfoOf(d: Description): TechniqueInfo {
    match d
    case Listed(e) => DetailInfo(e)
    case ByTactic(slot) => DefaultInfo(slot)
  }

  /** The branch `get_technique_description` takes. */
  function DescriptionOf(techniqueId: string): Description {
    match DetailsOf(techniqueId)
    case Some(e) => Listed(e)
    case None =>
      match DetailsOf(BaseTechnique(techniqueId))
      case Some(e) => Listed(e)
      case None => ByTactic(TacticOf(techniqueId))
  }

  /** `get_technique_description`. */
  function TechniqueDescription(techniqueId: string): TechniqueInfo {
    InfoOf(DescriptionOf(techniqueId))
  }

  /** The precedence: an identifier's own entry wins; without one, the identifier
      is described exactly as its base is; with no entry for either, the default
      names the tactic and lists the tactic's tools. */
  lemma DescriptionPrecedence(techniqueId: string)
    ensures DetailsOf(techniqueId).Some? ==> DescriptionOf(techniqueId) == Listed(DetailsOf(techniqueId).value)
    ensures DetailsOf(techniqueId).None? ==>
              DescriptionOf(techniqueId) == DescriptionOf(BaseTechnique(techniqueId))
    ensures DetailsOf(techniqueId).None? && DetailsOf(BaseTechnique(techniqueId)).None? ==>
              DescriptionOf(techniqueId) == ByTactic(TacticOf(techniqueId))
  {
    BaseIdempotent(techniqueId);
  }

  /** The default description names the technique's tactic (`Unknown` for none) and
      lists the tactic's tools. */
  lemma DefaultDescription(techniqueId: string)
    requires DetailsOf(techniqueId).None? && DetailsOf(BaseTechnique(techniqueId)).None?
    ensures TechniqueDescription(techniqueId).tools == ToolsByTactic(TacticOf(techniqueId))
    ensures TechniqueDescription(techniqueId).description ==
              "Technique related to " + SlotName(TacticOf(techniqueId), "Unknown") + " phase of the attack."
  {
  }

  /** A sub-technique without an entry of its own is described as its parent is:
      `T1003.001` as `T1003`. The sub-techniques with entries keep their own. */
  lemma SubTechniqueDescription(k: TechniqueKey)
    requires WellFormedKey(k) && k.sub.Some? && DetailsFor(k).None?
    ensures DescriptionOf(KeyText(k)) == DescriptionOf(KeyText(TechniqueKey(k.base, None)))
  {
    KeyTextRoundTrip(k);
    BaseOfKey(k);
    KeyTextRoundTrip(TechniqueKey(k.base, None));
    DescriptionPrecedence(KeyText(k));
  }

  /** Which identifiers have entries: `T1003.001` has none and falls back on
      `T1003`; `T1583.001` has one while `T1583` has none. */
  lemma DetailsEntries()
    ensures DetailsFor(TechniqueKey(1003, Some(1))).None? && DetailsFor(TechniqueKey(1003, None)).Some?
    ensures DetailsFor(TechniqueKey(1583, Some(1))).Some? && DetailsFor(TechniqueKey(1583, None)).None?
  {
  }

  // ---- Narrative actions ----

  /** The action table of `_get_technique_action`, by key. */
  function ActionFor(k: TechniqueKey): Option<string> {
    if k == TechniqueKey(1588, Some(1)) then Some("develop malware for the attack")
    else if k == TechniqueKey(1190, None) then Some("exploit public-facing application to gain access")
    else if k == TechniqueKey(1059, Some(1)) then Some("execute PowerShell commands")
    else if k == TechniqueKey(1133, None) then Some("establish persistence via external remote services")
    else if k == TechniqueKey(1546, Some(8)) then Some("escalate privileges using accessibility features")
    else if k == TechniqueKey(1562, Some(1)) then Some("disable security tools and monitoring")
    else if k == TechniqueKey(1003, None) then Some("dump operating system credentials")
    else if k == TechniqueKey(1046, None) then Some("discover network services and systems")
    else if k == TechniqueKey(1021, Some(6)) then Some("move laterally via Windows Remote Management")
    else if k == TechniqueKey(1119, None) then Some("collect data automatically from systems")
    else if k == TechniqueKey(1071, Some(1)) then Some("communicate via web protocols for C2")
    else if k == TechniqueKey(1583, Some(1)) then Some("acquire domains for malicious purposes")
    else if k == TechniqueKey(1566, Some(1)) then Some("send spearphishing emails with attachments")
    else if k == TechniqueKey(1505, Some(3)) then Some("deploy web shells for persistence")
    else if k == TechniqueKey(1047, None) then Some("use Windows Management Instrumentation")
    else if k == TechniqueKey(1070, Some(9)) then Some("clear persistence mechanisms")
    else if k == TechniqueKey(1012, None) then Some("query registry for information")
    else if k == TechniqueKey(1124, None) then Some("discover system time information")
    else None
  }

  function ActionOf(id: string): Option<string> {
    match ParseKey(id)
    case Some(k) => ActionFor(k)
    case None => None
  }

  /** The generic action of a tactic. */
  function GenericAction(t: Tactic): string {
    match t
    case ResourceDevelopment => "prepare attack resources"
    case InitialAccess => "gain initial access to the system"
    case Execution => "execute malicious code"
    case Persistence => "establish persistence mechanisms"
    case PrivilegeEscalation => "escalate privileges"
    case DefenseEvasion => "evade security defenses"
    case CredentialAccess => "access stored credentials"
    case Discovery => "discover system and network information"
    case LateralMovement => "move laterally through the network"
    case Collection => "collect data of interest"
    case CommandAndControl => "establish command and control"
    case Exfiltration => "exfiltrate collected data"
    case Impact => "cause impact on systems"
  }

  /** The tactic a display name names, if any. */
  function ParseTacticName(name: string): (r: Option<Tactic>)
    ensures r.Some? ==> TacticName(r.value) == name
  {
    if name == "Resource Development" then Some(ResourceDevelopment)
    else if name == "Initial Access" then Some(InitialAccess)
    else if name == "Execution" then Some(Execution)
    else if name == "Persistence" then Some(Persistence)
    else if name == "Privilege Escalation" then Some(PrivilegeEscalation)
    else if name == "Defense Evasion" then Some(DefenseEvasion)
    else if name == "Credential Access" then Some(CredentialAccess)
    else if name == "Discovery" then Some(Discovery)
    else if name == "Lateral Movement" then Some(LateralMovement)
    else if name == "Collection" then Some(Collection)
    else if name == "Command and Control" then Some(CommandAndControl)
    else if name == "Exfiltration" then Some(Exfiltration)
    else if name == "Impact" then Some(Impact)
    else None
  }

  /** Every tactic's display name reads back as that tactic. */
  lemma TacticNameRoundTrip(t: Tactic)
    ensures ParseTacticName(TacticName(t)) == Some(t)
  {
  }

  /** The action table is looked up by the exact identifier: `T1059.001` has an
      action, its base `T1059` none. */
  lemma ActionEntries()
    ensures ActionFor(TechniqueKey(1059, Some(1))).Some? && ActionFor(TechniqueKey(1059, None)).None?
  {
  }

  /** `_get_technique_action(technique_id, tactic)`, where `tactic` is a display name. */
  function TechniqueAction(techniqueId: string, tactic: string): string {
    match ActionOf(techniqueId)
    case Some(a) => a
    case None =>
      match ParseTacticName(tactic)
      case Some(t) => GenericAction(t)
      case None => "perform " + Lower(tactic) + " activities"
  }

  /** An identifier in the table gets its own action, and only the exact
      identifier does (no fall-back to the base, unlike descriptions); any other
      gets its tactic's generic action when `tactic` names a tactic, and the
      made-up `perform ... activities` otherwise. */
  lemma TechniqueActionSpec(techniqueId: string, tactic: string)
    ensures ActionOf(techniqueId).Some? ==> TechniqueAction(techniqueId, tactic) == ActionOf(techniqueId).value
    ensures forall t: Tactic :: ActionOf(techniqueId).None? && tactic == TacticName(t) ==>
              TechniqueAction(techniqueId, tactic) == GenericAction(t)
    ensures ActionOf(techniqueId).None? && (forall t: Tactic :: TacticName(t) != tactic) ==>
              TechniqueAction(techniqueId, tactic) == "perform " + Lower(tactic) + " activities"
  {
    forall t: Tactic | tactic == TacticName(t) ensures ParseTacticName(tactic) == Some(t) {
      TacticNameRoundTrip(t);
    }
  }
}
