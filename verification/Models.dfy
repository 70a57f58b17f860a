// The routing graph and its meaning-bearing helpers (internal/models/routing.go).

module Models {
  import opened Wrappers
  import opened Sequences
  import opened Text

  datatype Kind =
    | Apps | Domains | Ip | DomainRegex | Port | Protocol
    | GeoSite | GeoIp | Network | ListUrl | Logical
    | UnknownKind(name: string)

  datatype Action = Proxy | Direct | Block | Drop | OtherAction(name: string)

  /** How a logical rule combines its conditions: "and", "or", or junk. */
  datatype Mode = All | Any | OtherMode(name: string)

  datatype Condition = Condition(kind: Kind, values: seq<string>, invert: bool)

  datatype Rule = Rule(
    id: string, kind: Kind, values: seq<string>, action: Action, invert: bool,
    server: string, dns: string, mode: Mode, conditions: seq<Condition>)

  /** Validity checks the app leaves to Go's own parsers. */
  datatype Checks = Checks(prefix: string -> bool, regex: string -> bool, listUrl: string -> bool)

  const SNIFFABLE: seq<string> :=
    ["tls", "http", "quic", "dns", "stun", "bittorrent", "dtls", "ssh", "rdp", "ntp"]

  predicate ValidMatcherKind(kind: Kind) {
    !kind.Logical? && !kind.UnknownKind?
  }

  predicate ValidAction(action: Action) {
    !action.OtherAction?
  }

  // ------------------------------------------------------------ entry checks

  function ParsePort(value: string): (port: Option<int>)
    ensures port.Some? ==> 1 <= port.value <= 65535
  {
    match Atoi(Trim(value))
    case Some(n) => if 1 <= n <= 65535 then Some(n) else None
    case None => None
  }

  function Span(low: Option<int>, high: Option<int>): Option<(int, int)> {
    if low.Some? && high.Some? && low.value <= high.value then Some((low.value, high.value)) else None
  }

  /** A single port, or an inclusive range cut at the first '-'. */
  function PortBounds(value: string): Option<(int, int)> {
    var (low, high) := CutAt(value, '-');
    Span(ParsePort(low), ParsePort(if high.Some? then high.value else low))
  }

  predicate GeoChar(c: char, site: bool) {
    'a' <= c <= 'z' || '0' <= c <= '9' || c == '-' || c == '_' || (site && (c == '!' || c == '@'))
  }

  predicate ValidGeoToken(value: string, site: bool) {
    0 < |value| <= 64 && forall c <- value :: GeoChar(c, site)
  }

  predicate ValidValue(checks: Checks, kind: Kind, value: string) {
    match kind
    case Ip => checks.prefix(value)
    case Port => PortBounds(value).Some?
    case Protocol => ToLower(Trim(value)) in SNIFFABLE
    case GeoSite => ValidGeoToken(value, true)
    case GeoIp => ValidGeoToken(value, false)
    case DomainRegex => checks.regex(value)
    case Network => value == "tcp" || value == "udp"
    case ListUrl => checks.listUrl(value)
    case _ => true
  }

  // --------------------------------------------------------------- cleaning

  predicate CaseInsensitive(kind: Kind) {
    kind.GeoSite? || kind.GeoIp? || kind.Protocol? || kind.Network?
  }

  function Canonical(kind: Kind, value: string): string {
    if CaseInsensitive(kind) then ToLower(Trim(value)) else Trim(value)
  }

  /** One entry tidied up, or nothing when it cannot match anything. */
  function CleanValue(checks: Checks, kind: Kind, value: string): Option<string> {
    var tidy := Canonical(kind, value);
    if Trim(value) != "" && ValidValue(checks, kind, tidy) then Some(tidy) else None
  }

  /** The entries a matcher keeps, in order and without repeats. */
  function Cleaned(checks: Checks, kind: Kind, values: seq<string>): seq<string> {
    Distinct(value => CleanValue(checks, kind, value), values)
  }

  method CleanValues(checks: Checks, condition: Condition) returns (result: seq<string>)
    ensures result == Cleaned(checks, condition.kind, condition.values)
  {
    result := [];
    var seen := {};
    for i := 0 to |condition.values|
      invariant result == Cleaned(checks, condition.kind, condition.values[..i])
      invariant forall v :: v in seen <==> v in result
    {
      assert condition.values[..i + 1][..i] == condition.values[..i];
      if Trim(condition.values[i]) == "" { continue; }
      var trimmed := Canonical(condition.kind, condition.values[i]);
      if trimmed in seen || !ValidValue(checks, condition.kind, trimmed) { continue; }
      seen := seen + {trimmed};
      result := result + [trimmed];
    }
    assert condition.values[..|condition.values|] == condition.values;
  }

  /** What is kept does not depend on order or repeats: exactly the tidied forms of the acceptable entries. */
  lemma CleanedMembers(checks: Checks, kind: Kind, values: seq<string>)
    ensures NoRepeats(Cleaned(checks, kind, values))
    ensures forall v :: v in Cleaned(checks, kind, values) <==>
      (exists raw <- values :: CleanValue(checks, kind, raw) == Some(v))
  {
    var accept := value => CleanValue(checks, kind, value);
    DistinctNoRepeats(accept, values);
    forall v
      ensures v in Cleaned(checks, kind, values) <==> (exists raw <- values :: CleanValue(checks, kind, raw) == Some(v))
    {
      DistinctMembers(accept, values, v);
    }
  }

  lemma CanonicalTwice(kind: Kind, value: string)
    ensures var tidy := Canonical(kind, value);
      Trim(tidy) == tidy && Canonical(kind, tidy) == tidy && (tidy == "" <==> Trim(value) == "")
  {
    TrimTrims(value);
    TrimFixes(Trim(value));
    TidyTwice(Trim(value));
  }

  /** Tidying a tidied entry changes nothing. */
  lemma CleanValueTwice(checks: Checks, kind: Kind, value: string)
    requires CleanValue(checks, kind, value).Some?
    ensures var tidy := CleanValue(checks, kind, value).value; tidy != "" && CleanValue(checks, kind, tidy) == Some(tidy)
  {
    CanonicalTwice(kind, value);
  }

  lemma CleanedTwice(checks: Checks, kind: Kind, values: seq<string>)
    ensures forall v :: v in Cleaned(checks, kind, Cleaned(checks, kind, values)) <==> v in Cleaned(checks, kind, values)
    ensures "" !in Cleaned(checks, kind, values)
  {
    var once := Cleaned(checks, kind, values);
    CleanedMembers(checks, kind, values);
    CleanedMembers(checks, kind, once);
    forall v | v in once
      ensures v != "" && CleanValue(checks, kind, v) == Some(v)
    {
      var raw :| raw in values && CleanValue(checks, kind, raw) == Some(v);
      CleanValueTwice(checks, kind, raw);
    }
  }

  // --------------------------------------------------------- usable parts

  function UsableConditions(checks: Checks, conditions: seq<Condition>): seq<Condition> {
    if conditions == [] then []
    else
      var kept := UsableConditions(checks, conditions[..|conditions| - 1]);
      var last := conditions[|conditions| - 1];
      var values := Cleaned(checks, last.kind, last.values);
      if ValidMatcherKind(last.kind) && values != [] then kept + [last.(values := values)] else kept
  }

  method CollectUsableConditions(checks: Checks, rule: Rule) returns (result: seq<Condition>)
    ensures result == UsableConditions(checks, rule.conditions)
  {
    result := [];
    for i := 0 to |rule.conditions|
      invariant result == UsableConditions(checks, rule.conditions[..i])
    {
      assert rule.conditions[..i + 1][..i] == rule.conditions[..i];
      var condition := rule.conditions[i];
      if !ValidMatcherKind(condition.kind) { continue; }
      var values := CleanValues(checks, condition);
      if |values| == 0 { continue; }
      result := result + [condition.(values := values)];
    }
    assert rule.conditions[..|rule.conditions|] == rule.conditions;
  }

  function Matcher(rule: Rule): Condition {
    Condition(rule.kind, rule.values, rule.invert)
  }

  /** What the rule matches on: its own entries, or a logical rule's usable parts. */
  function Matchers(checks: Checks, rule: Rule): seq<Condition> {
    if rule.kind.Logical? then UsableConditions(checks, rule.conditions)
    else [Matcher(rule).(values := Cleaned(checks, rule.kind, rule.values))]
  }

  predicate Usable(checks: Checks, rule: Rule) {
    !rule.kind.UnknownKind? && ValidAction(rule.action)
    && if rule.kind.Logical? then UsableConditions(checks, rule.conditions) != []
       else Cleaned(checks, rule.kind, rule.values) != []
  }

  function UsableRules(checks: Checks, rules: seq<Rule>): seq<Rule> {
    if rules == [] then []
    else
      var kept := UsableRules(checks, rules[..|rules| - 1]);
      var last := rules[|rules| - 1];
      if Usable(checks, last) then kept + [last] else kept
  }

  method CollectUsableRules(checks: Checks, rules: seq<Rule>) returns (result: seq<Rule>)
    ensures result == UsableRules(checks, rules)
  {
    result := [];
    for i := 0 to |rules|
      invariant result == UsableRules(checks, rules[..i])
    {
      assert rules[..i + 1][..i] == rules[..i];
      if Usable(checks, rules[i]) {
        result := result + [rules[i]];
      }
    }
    assert rules[..|rules|] == rules;
  }

  lemma {:induction false} UsableRulesMembers(checks: Checks, rules: seq<Rule>)
    ensures forall r <- UsableRules(checks, rules) :: r in rules && Usable(checks, r)
    ensures forall r <- rules :: Usable(checks, r) ==> r in UsableRules(checks, rules)
  {
    if rules != [] {
      UsableRulesMembers(checks, rules[..|rules| - 1]);
      assert forall r :: r in rules <==> r in rules[..|rules| - 1] || r == rules[|rules| - 1];
    }
  }

  // ------------------------------------------------------------ split tunnel

  predicate SplitTunnelling(rules: seq<Rule>, defaultAction: Action) {
    defaultAction != Proxy || exists rule <- rules :: rule.action != Proxy
  }

  /** About domain names, which is what a per-rule resolver can answer for. */
  predicate AboutDomains(condition: Condition) {
    condition.kind.Domains? || condition.kind.DomainRegex? || condition.kind.GeoSite? || condition.kind.ListUrl?
  }

  function CountDomains(conditions: seq<Condition>): (n: nat)
    ensures n <= |conditions|
  {
    if conditions == [] then 0
    else
      var last := conditions[|conditions| - 1];
      CountDomains(conditions[..|conditions| - 1]) + if AboutDomains(last) && !last.invert then 1 else 0
  }

  predicate MatchesDomains(checks: Checks, rule: Rule) {
    var matchers := Matchers(checks, rule);
    var domains := CountDomains(matchers);
    !rule.invert && matchers != []
    && if !rule.kind.Logical? || rule.mode == All then domains > 0 else domains == |matchers|
  }
}
