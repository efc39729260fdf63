/** The masking engine of the governance service
    (services/governance/src/masking/engine.ts). It holds a list of masking rules;
    a value of some classification, seen by a user with some roles, is masked by
    the first enabled rule for that classification whose role the user has. */
module Masking {
  import opened Wrappers
  import opened Text
  import opened Seqs

  /** The rule kinds; a tag outside the four known ones leaves the value unchanged. */
  datatype MaskingType = REDACT | HASH | PARTIAL | CUSTOM | Unrecognised(tag: string)

  /** The `maskingConfig` entries the masks read, each possibly absent. Numbers are
      modelled as integers. */
  datatype MaskingConfig = MaskingConfig(
    showFirst: Option<int>,
    showLast: Option<int>,
    maskChar: Option<string>,
    pattern: Option<string>,
    replacement: Option<string>)

  datatype MaskingRule = MaskingRule(
    id: int,
    name: string,
    classificationKey: string,
    roleId: int,
    maskingType: MaskingType,
    maskingConfig: MaskingConfig,
    enabled: bool)

  datatype MaskingResult = MaskingResult(masked: bool, value: string, reason: Option<string>)

  /** Replacing every match of a regular expression, the foreign part of a CUSTOM
      mask: (value, pattern, replacement) to the replaced value. */
  type RegexReplace = (string, string, string) -> string

  const Redacted: string := "***REDACTED***"

  /** The rule applies to this classification and these roles; the role id is
      compared through its decimal string. */
  predicate Applicable(rule: MaskingRule, classificationKey: string, userRoles: seq<string>) {
    rule.classificationKey == classificationKey && rule.enabled && IntToString(rule.roleId) in userRoles
  }

  /** Rule i is the first applicable one. */
  predicate FirstApplicable(rules: seq<MaskingRule>, classificationKey: string, userRoles: seq<string>, i: int) {
    && 0 <= i < |rules|
    && Applicable(rules[i], classificationKey, userRoles)
    && forall j :: 0 <= j < i ==> !Applicable(rules[j], classificationKey, userRoles)
  }

  function Reason(classificationKey: string): string {
    "Masked due to " + classificationKey + " classification and role restrictions"
  }

  // ---------------------------------------------------------------------------
  // HASH: a 31-multiplier string hash over 32-bit signed integers
  // ---------------------------------------------------------------------------

  const TwoTo32: int := 0x1_0000_0000

  /** The ECMAScript ToInt32 conversion: the 32-bit two's-complement value congruent to x. */
  function ToInt32(x: int): (r: int)
    ensures -0x8000_0000 <= r < 0x8000_0000
    ensures (x - r) % TwoTo32 == 0
  {
    (x + 0x8000_0000) % TwoTo32 - 0x8000_0000
  }

  /** Congruent numbers convert to the same 32-bit integer. */
  lemma ToInt32Congruent(a: int, b: int)
    requires (a - b) % TwoTo32 == 0
    ensures ToInt32(a) == ToInt32(b)
  {
    var k := (a - b) / TwoTo32;
    assert a + 0x8000_0000 == (b + 0x8000_0000) + k * TwoTo32;
  }

  /** The hash accumulator after all of s: h' = ToInt32(31 * h + c) per character. */
  function Hash(s: string): (h: int)
    ensures -0x8000_0000 <= h < 0x8000_0000
    decreases |s|
  {
    if s == [] then 0 else ToInt32(31 * Hash(s[..|s| - 1]) + s[|s| - 1] as int)
  }

  function Abs(x: int): nat {
    if x < 0 then -x else x
  }

  /** The HASH mask of a value: `hash_` and the hexadecimal magnitude of its hash. */
  function HashString(value: string): string {
    "hash_" + NatToString(Abs(Hash(value)), 16)
  }

  /** `hashValue`: the shift-subtract-add loop, wrapped to 32 bits after each character. */
  method HashValue(value: string) returns (r: string)
    ensures r == HashString(value)
  {
    var hash := 0;
    for i := 0 to |value|
      invariant hash == Hash(value[..i])
    {
      var c := value[i] as int;
      var shifted := ToInt32(hash * 32);
      ToInt32Congruent(shifted - hash + c, 31 * hash + c);
      hash := ToInt32(shifted - hash + c);
      assert value[..i + 1][..i] == value[..i];
    }
    assert value[..|value|] == value;
    r := "hash_" + NatToString(Abs(hash), 16);
  }

  /** A hash string is `hash_` followed by one to eight lower-case hexadecimal digits. */
  lemma HashStringShape(value: string)
    ensures var r := HashString(value);
      && 6 <= |r| <= 13 && r[..5] == "hash_"
      && forall i :: 5 <= i < |r| ==> IsDigit(r[i]) || 'a' <= r[i] <= 'f'
  {
    var n := Abs(Hash(value));
    var hex := NatToString(n, 16);
    HexDigits(n);
    assert Pow(16, 8) == 0x1_0000_0000;
    DigitCount(n, 16, 8);
    var r := HashString(value);
    forall i | 5 <= i < |r| ensures IsDigit(r[i]) || 'a' <= r[i] <= 'f' {
      assert r[i] == hex[i - 5];
    }
  }

  /** Appending one character advances the accumulator by one step. */
  lemma HashSnoc(s: string, c: char)
    ensures Hash(s + [c]) == ToInt32(31 * Hash(s) + c as int)
  {
    var t := s + [c];
    assert t[..|t| - 1] == s && t[|t| - 1] == c;
    var h := Hash(s);
    assert Hash(t) == ToInt32(31 * h + c as int);
  }

  /** A worked value: "ab" hashes to 97 * 31 + 98 = 3105, hexadecimal c21. */
  lemma HashExample()
    ensures Hash("ab") == 3105
    ensures HashString("ab") == "hash_c21"
  {
    HashSnoc("a", 'b');
    HashSnoc("", 'a');
    assert "" + ['a'] == "a" && "a" + ['b'] == "ab";
    assert NatToString(3105, 16) == NatToString(194, 16) + [DigitChar(1)];
    assert NatToString(194, 16) == NatToString(12, 16) + [DigitChar(2)];
  }

  // ---------------------------------------------------------------------------
  // PARTIAL and CUSTOM
  // ---------------------------------------------------------------------------

  /** `config.showFirst as number || 2`: absent or 0 falls back to 2. */
  function ShowFirst(config: MaskingConfig): int {
    if config.showFirst.None? || config.showFirst.value == 0 then 2 else config.showFirst.value
  }

  function ShowLast(config: MaskingConfig): int {
    if config.showLast.None? || config.showLast.value == 0 then 2 else config.showLast.value
  }

  /** `config.maskChar as string || '*'`: absent or empty falls back to `*`. */
  function MaskChar(config: MaskingConfig): string {
    if config.maskChar.None? || config.maskChar.value == "" then "*" else config.maskChar.value
  }

  /** `partialMask`: short values are masked entirely; otherwise the first and last
      characters are kept around a masked middle. */
  function PartialMask(value: string, config: MaskingConfig): string {
    var first, last, mc := ShowFirst(config), ShowLast(config), MaskChar(config);
    if |value| <= first + last then Repeat(mc, |value|)
    else
      Substring(value, 0, first) + Repeat(mc, |value| - first - last)
      + Substring(value, |value| - last, |value|)
  }

  /** A value no longer than showFirst + showLast becomes the mask string repeated
      once per character. */
  lemma PartialMaskShort(value: string, config: MaskingConfig)
    requires |value| <= ShowFirst(config) + ShowLast(config)
    ensures PartialMask(value, config) == Repeat(MaskChar(config), |value|)
  {
  }

  /** A longer value keeps its first showFirst and last showLast characters around
      the mask; with a one-character mask the length is preserved. */
  lemma PartialMaskLong(value: string, config: MaskingConfig)
    requires ShowFirst(config) >= 0 && ShowLast(config) >= 0
    requires |value| > ShowFirst(config) + ShowLast(config)
    ensures var r := PartialMask(value, config);
      var first, last := ShowFirst(config), ShowLast(config);
      && r == value[..first] + Repeat(MaskChar(config), |value| - first - last) + value[|value| - last..]
      && (|MaskChar(config)| == 1 ==> |r| == |value|)
  {
  }

  /** An empty configuration shows two characters at each end and masks with `*`. */
  lemma PartialMaskDefaults(value: string)
    requires |value| > 4
    ensures PartialMask(value, MaskingConfig(None, None, None, None, None))
            == value[..2] + Repeat("*", |value| - 4) + value[|value| - 2..]
  {
    var config := MaskingConfig(None, None, None, None, None);
    assert ShowFirst(config) == 2 && ShowLast(config) == 2 && MaskChar(config) == "*";
    PartialMaskLong(value, config);
  }

  /** `customMask`: with a pattern, the regex replacement (default `*`); without one,
      the value unchanged. */
  function CustomMask(value: string, config: MaskingConfig, replaceAll: RegexReplace): string {
    if config.pattern.Some? && config.pattern.value != "" then
      var replacement := if config.replacement.None? || config.replacement.value == "" then "*"
                         else config.replacement.value;
      replaceAll(value, config.pattern.value, replacement)
    else value
  }

  /** `applyMaskingRule`: dispatch on the rule kind. */
  function ApplyMaskingRule(value: string, rule: MaskingRule, replaceAll: RegexReplace): string {
    match rule.maskingType
    case REDACT => Redacted
    case HASH => HashString(value)
    case PARTIAL => PartialMask(value, rule.maskingConfig)
    case CUSTOM => CustomMask(value, rule.maskingConfig, replaceAll)
    case Unrecognised(_) => value
  }

  /** REDACT ignores the value, whatever the configuration; an unknown kind is the identity. */
  lemma RuleKinds(v1: string, v2: string, rule: MaskingRule, replaceAll: RegexReplace)
    ensures rule.maskingType == REDACT ==>
              ApplyMaskingRule(v1, rule, replaceAll) == ApplyMaskingRule(v2, rule, replaceAll) == "***REDACTED***"
    ensures rule.maskingType.Unrecognised? ==> ApplyMaskingRule(v1, rule, replaceAll) == v1
  {
  }

  // ---------------------------------------------------------------------------
  // The engine
  // ---------------------------------------------------------------------------

  class MaskingEngine {
    var rules: seq<MaskingRule>

    constructor()
      ensures rules == []
    {
      rules := [];
    }

    /** `setRules` replaces the whole rule list. */
    method SetRules(newRules: seq<MaskingRule>)
      modifies this
      ensures rules == newRules
    {
      rules := newRules;
    }

    /** `shouldMask`: some rule applies. */
    predicate ShouldMask(classificationKey: string, userRoles: seq<string>)
      reads this
    {
      exists i :: 0 <= i < |rules| && Applicable(rules[i], classificationKey, userRoles)
    }

    /** `applyMasking`: the value is masked exactly when `shouldMask` says so, by the
        first applicable rule; otherwise it is returned unchanged without a reason. */
    function ApplyMasking(value: string, classificationKey: string, userRoles: seq<string>,
                          replaceAll: RegexReplace): (r: MaskingResult)
      reads this
      ensures r.masked == ShouldMask(classificationKey, userRoles)
      ensures !r.masked ==> r == MaskingResult(false, value, None)
      ensures forall i :: FirstApplicable(rules, classificationKey, userRoles, i) ==>
                r == MaskingResult(true, ApplyMaskingRule(value, rules[i], replaceAll), Some(Reason(classificationKey)))
    {
      var applicable := Filter(rules, rule => Applicable(rule, classificationKey, userRoles));
      ApplicableRules(rules, classificationKey, userRoles);
      if |applicable| == 0 then MaskingResult(false, value, None)
      else MaskingResult(true, ApplyMaskingRule(value, applicable[0], replaceAll), Some(Reason(classificationKey)))
    }
  }

  /** The applicable rules are empty exactly when no rule applies, and otherwise
      start with the first applicable rule. */
  lemma ApplicableRules(rules: seq<MaskingRule>, classificationKey: string, userRoles: seq<string>)
    ensures var p := (rule: MaskingRule) => Applicable(rule, classificationKey, userRoles);
      && (Filter(rules, p) == [] <==> forall i :: 0 <= i < |rules| ==> !Applicable(rules[i], classificationKey, userRoles))
      && forall i :: FirstApplicable(rules, classificationKey, userRoles, i) ==> Filter(rules, p) != [] && Filter(rules, p)[0] == rules[i]
  {
    var p := (rule: MaskingRule) => Applicable(rule, classificationKey, userRoles);
    forall i | FirstApplicable(rules, classificationKey, userRoles, i)
      ensures Filter(rules, p) != [] && Filter(rules, p)[0] == rules[i]
    {
      FilterHead(rules, p, i);
    }
    if Filter(rules, p) != [] {
      var x := Filter(rules, p)[0];
      assert x in Filter(rules, p);
      var i :| 0 <= i < |rules| && rules[i] == x;
    } else {
      forall i | 0 <= i < |rules| ensures !Applicable(rules[i], classificationKey, userRoles) {
        FilterKeeps(rules, p, rules[i]);
      }
    }
  }

  /** If some rule applies, there is a first one. */
  lemma FirstApplicableExists(rules: seq<MaskingRule>, classificationKey: string, userRoles: seq<string>, k: int)
    requires 0 <= k < |rules| && Applicable(rules[k], classificationKey, userRoles)
    ensures exists i :: FirstApplicable(rules, classificationKey, userRoles, i)
    decreases k
  {
    if exists j :: 0 <= j < k && Applicable(rules[j], classificationKey, userRoles) {
      var j :| 0 <= j < k && Applicable(rules[j], classificationKey, userRoles);
      FirstApplicableExists(rules, classificationKey, userRoles, j);
    } else {
      assert FirstApplicable(rules, classificationKey, userRoles, k);
    }
  }

  /** Disabled rules never mask: with every rule disabled, nothing is masked. */
  lemma DisabledRulesNeverMask(e: MaskingEngine, value: string, classificationKey: string,
                               userRoles: seq<string>, replaceAll: RegexReplace)
    requires forall i :: 0 <= i < |e.rules| ==> !e.rules[i].enabled
    ensures e.ApplyMasking(value, classificationKey, userRoles, replaceAll) == MaskingResult(false, value, None)
  {
  }

  /** Roles match on the decimal form of the role id: rule role 12 applies to a user
      holding "12", but not to one holding only "012". */
  lemma RoleMatchesDecimalString(rule: MaskingRule)
    requires rule.roleId == 12 && rule.enabled
    ensures Applicable(rule, rule.classificationKey, ["12"])
    ensures !Applicable(rule, rule.classificationKey, ["012"])
  {
    assert NatToString(12, 10) == NatToString(1, 10) + [DigitChar(2)];
    assert IntToString(12) == "12";
  }
}
