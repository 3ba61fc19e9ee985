/** Declared-topic enforcement: what a primitive may publish and subscribe to, and
    how the IPC policy applies it. */
module Declarations {
  import opened Options
  import opened Topics
  import opened Topology

  // ---------------------------------------------------------------------
  // Topic sets
  // ---------------------------------------------------------------------

  datatype TopicSet = TopicSet(exact: set<string>, prefixes: seq<string>)

  function SetOf(topics: seq<string>): TopicSet {
    if topics == [] then TopicSet({}, [])
    else
      var before, topic := SetOf(topics[..|topics| - 1]), topics[|topics| - 1];
      match ClassifyTopic(topic)
      case Usable(Exact) => before.(exact := before.exact + {topic})
      case Usable(Pattern) => before.(prefixes := before.prefixes + [PatternPrefix(topic).value])
      case Unusable(_) => before
  }

  method NewTopicSet(topics: seq<string>) returns (s: TopicSet)
    ensures s == SetOf(topics)
  {
    var exact: set<string>, prefixes: seq<string> := {}, [];
    for i := 0 to |topics|
      invariant TopicSet(exact, prefixes) == SetOf(topics[..i])
    {
      assert topics[..i + 1][..i] == topics[..i];
      match ClassifyTopic(topics[i]) {
        case Usable(Exact) => exact := exact + {topics[i]};
        case Usable(Pattern) =>
          var prefix := PatternPrefix(topics[i]);
          if prefix.Some? {
            prefixes := prefixes + [prefix.value];
          }
        case Unusable(_) =>
      }
    }
    assert topics[..|topics|] == topics;
    s := TopicSet(exact, prefixes);
  }

  predicate Permits(s: TopicSet, messageType: string) {
    messageType in s.exact || exists i :: 0 <= i < |s.prefixes| && s.prefixes[i] <= messageType
  }

  /** A declared topic that can be used and matches the message type, told on the texts:
      it is the type itself and has no star, or at most 256 bytes with one star at the
      end, and the type begins with what stands before it. */
  ghost predicate Covers(topic: string, messageType: string) {
    || (topic == messageType && topic != "" && '*' !in topic)
    || (|topic| <= 256 && exists prefix :: Stars(prefix, topic) && prefix <= messageType)
  }

  lemma CoversWhatItMatches(topic: string, messageType: string)
    ensures Covers(topic, messageType) <==> ClassifyTopic(topic).Usable? && TopicMatches(topic, messageType)
  {
    TopicsAreClassifiedByText(topic);
    TopicsMatchByText(topic, messageType);
    hide ClassifyTopic, TopicMatches, Stars;
  }

  ghost predicate CoveredBySome(declared: seq<string>, messageType: string) {
    exists i :: 0 <= i < |declared| && Covers(declared[i], messageType)
  }

  /** The prepared set answers exactly as a plain scan of the declared topics that
      can be used. */
  lemma {:induction false} PermitsIsAPlainScan(declared: seq<string>, messageType: string)
    ensures Permits(SetOf(declared), messageType) <==> CoveredBySome(declared, messageType)
  {
    if declared != [] {
      var most, topic := declared[..|declared| - 1], declared[|declared| - 1];
      PermitsIsAPlainScan(most, messageType);
      OneMorePermits(SetOf(most), topic, messageType);
      assert forall i :: 0 <= i < |most| ==> declared[i] == most[i];
      assert CoveredBySome(declared, messageType) <==> CoveredBySome(most, messageType) || Covers(topic, messageType);
    }
  }

  lemma OneMorePermits(s: TopicSet, topic: string, messageType: string)
    ensures ClassifyTopic(topic) == Usable(Exact) ==>
      (Permits(s.(exact := s.exact + {topic}), messageType) <==> Permits(s, messageType) || Covers(topic, messageType))
    ensures ClassifyTopic(topic) == Usable(Pattern) ==>
      (Permits(s.(prefixes := s.prefixes + [PatternPrefix(topic).value]), messageType) <==>
        Permits(s, messageType) || Covers(topic, messageType))
  {
    CoversWhatItMatches(topic, messageType);
    if ClassifyTopic(topic) == Usable(Pattern) {
      var more := s.prefixes + [PatternPrefix(topic).value];
      assert forall i :: 0 <= i < |s.prefixes| ==> more[i] == s.prefixes[i];
      assert more[|s.prefixes|] == PatternPrefix(topic).value;
    }
  }

  /** One declared topic that covers a requested topic's text covers everything the
      requested topic can match, wildcard or not. */
  lemma CoveringATopicCoversItsMatches(declared: string, requested: string, messageType: string)
    requires Covers(declared, requested) && TopicMatches(requested, messageType)
    ensures Covers(declared, messageType)
  {
    CoversWhatItMatches(declared, requested);
    CoversWhatItMatches(declared, messageType);
    hide Covers;
    var p, d := PatternPrefix(requested), PatternPrefix(declared);
    if p.Some? && d.Some? {
      assert requested == p.value + ['*'] && '*' !in d.value;
    }
  }

  /** Holding a requested topic to the declarations is holding every message it can
      bring: the set permits a topic whose wildcard is in place exactly when it
      permits every message type the topic matches. */
  lemma PermittedTopicsAreCovered(declared: seq<string>, requested: string)
    requires '*' !in requested || PatternPrefix(requested).Some?
    ensures Permits(SetOf(declared), requested)
       <==> forall m :: TopicMatches(requested, m) ==> Permits(SetOf(declared), m)
  {
    PermitsIsAPlainScan(declared, requested);
    MatchesSomethingOrMisplaced(requested);
    hide SetOf, Permits;
    if Permits(SetOf(declared), requested) {
      var i :| 0 <= i < |declared| && Covers(declared[i], requested);
      forall m | TopicMatches(requested, m)
        ensures Permits(SetOf(declared), m)
      {
        CoveringATopicCoversItsMatches(declared[i], requested, m);
        PermitsIsAPlainScan(declared, m);
      }
    }
  }

  // ---------------------------------------------------------------------
  // The table
  // ---------------------------------------------------------------------

  datatype Mode = Off | WarnOnly | Strict

  datatype Operation = Publish | Subscribe

  datatype Verdict = Declared | Protocol | Undeclared | KindCannot | UnknownPrimitive | Unauthenticated | SourceMismatch

  datatype Enforcement = Accept | Warn | Reject

  datatype Checked = Checked(verdict: Verdict, enforcement: Enforcement)

  predicate IsViolation(v: Verdict) { !v.Declared? && !v.Protocol? }

  function EnforcementFor(mode: Mode, v: Verdict): Enforcement {
    if !IsViolation(v) then Accept
    else
      match mode
      case Off => Accept
      case WarnOnly => Warn
      case Strict => Reject
  }

  predicate IsProtocolTopic(op: Operation, messageType: string) {
    match op
    case Publish => messageType == "system.request.subscriptions" || messageType == "system.request.topology"
    case Subscribe =>
      || messageType == "system.shutdown" || messageType == "system.response.subscriptions"
      || messageType == "system.response.topology"
  }

  /** One primitive's kind and declared lists, and the sets prepared from them. */
  datatype Declaration = Declaration(kind: Kind, publishes: seq<string>, subscribes: seq<string>)

  predicate KindPermits(kind: Kind, op: Operation) {
    !(kind == Sink && op == Publish) && !(kind == Source && op == Subscribe)
  }

  function TopicsFor(d: Declaration, op: Operation): seq<string> {
    if op == Publish then d.publishes else d.subscribes
  }

  function Decide(d: Option<Declaration>, op: Operation, messageType: string): Verdict {
    if IsProtocolTopic(op, messageType) then Protocol
    else if d.None? then UnknownPrimitive
    else if !KindPermits(d.value.kind, op) then KindCannot
    else if Permits(SetOf(TopicsFor(d.value, op)), messageType) then Declared
    else Undeclared
  }

  type Table = map<string, Declaration>

  function Lookup(t: Table, name: string): Option<Declaration> { if name in t then Some(t[name]) else None }

  function Check(mode: Mode, t: Table, name: Option<string>, op: Operation, messageType: string): Checked {
    if mode == Off then Checked(Declared, Accept)
    else
      var v := match name
        case None => if IsProtocolTopic(op, messageType) then Protocol else Unauthenticated
        case Some(n) => Decide(Lookup(t, n), op, messageType);
      Checked(v, EnforcementFor(mode, v))
  }

  function DecideSource(identity: Option<string>, source: Option<string>): Verdict {
    if identity.Some? && source.Some? && source.value != identity.value then SourceMismatch else Declared
  }

  function CheckSource(mode: Mode, identity: Option<string>, source: Option<string>): Checked {
    if mode == Off then Checked(Declared, Accept)
    else Checked(DecideSource(identity, source), EnforcementFor(mode, DecideSource(identity, source)))
  }

  /** What it means for a primitive's declarations to allow an operation on a message
      type. To publish it: one of the two requests every SDK makes, or a configured
      primitive that is not a sink and whose publishes cover it. To subscribe to it: the
      shutdown notice or one of the two responses, or a configured primitive that is not
      a source and whose subscribes cover it. */
  ghost predicate Allows(t: Table, name: Option<string>, op: Operation, messageType: string) {
    match op
    case Publish =>
      || messageType in {"system.request.subscriptions", "system.request.topology"}
      || (name.Some? && name.value in t && t[name.value].kind != Sink
          && CoveredBySome(t[name.value].publishes, messageType))
    case Subscribe =>
      || messageType in {"system.shutdown", "system.response.subscriptions", "system.response.topology"}
      || (name.Some? && name.value in t && t[name.value].kind != Source
          && CoveredBySome(t[name.value].subscribes, messageType))
  }

  /** Which violation is found in an operation that is not allowed: of a connection
      without a name, of a name that is not configured, of a sink that publishes or a
      source that subscribes, or of a topic that is not declared. */
  function WhyNot(t: Table, name: Option<string>, op: Operation): Verdict {
    if name.None? then Unauthenticated
    else if name.value !in t then UnknownPrimitive
    else if (op == Publish && t[name.value].kind == Sink) || (op == Subscribe && t[name.value].kind == Source)
    then KindCannot
    else Undeclared
  }

  /** With enforcement on, a check finds a violation exactly when the declarations do not
      allow the operation, and says which; with enforcement off it finds none. */
  lemma CheckFindsViolations(mode: Mode, t: Table, name: Option<string>, op: Operation, messageType: string)
    ensures mode != Off ==>
      (IsViolation(Check(mode, t, name, op, messageType).verdict) <==> !Allows(t, name, op, messageType))
    ensures mode != Off && !Allows(t, name, op, messageType) ==>
      Check(mode, t, name, op, messageType).verdict == WhyNot(t, name, op)
    ensures mode == Off ==> !IsViolation(Check(mode, t, name, op, messageType).verdict)
  {
    if name.Some? && name.value in t {
      PermitsIsAPlainScan(t[name.value].publishes, messageType);
      PermitsIsAPlainScan(t[name.value].subscribes, messageType);
    }
    hide SetOf, Permits, CoveredBySome;
  }

  // ---------------------------------------------------------------------
  // The policy
  // ---------------------------------------------------------------------

  datatype Identity = Managed(name: string) | Unmanaged

  /** Whether an unmanaged connection's own claim counts as its name. */
  datatype UnmanagedNames = Ignored | Claimed

  datatype Policy = Policy(mode: Mode, table: Table, unmanaged: UnmanagedNames, reporting: bool)

  datatype EffectiveName = EffectiveName(name: Option<string>, trusted: bool)

  function EffectiveNameOf(identity: Identity, claimed: Option<string>, unmanaged: UnmanagedNames): EffectiveName {
    match identity
    case Managed(name) => EffectiveName(Some(name), true)
    case Unmanaged => EffectiveName(if unmanaged == Ignored then None else claimed, false)
  }

  /** The sentence a violation is logged and refused with, as what it says. */
  datatype Report = Report(verdict: Verdict, who: Option<string>, op: Operation, messageType: string)

  /** What the policy tells others: observers hear of violations and of subscribes it
      let through, and the reporting task of refusals that have a name. */
  datatype Note =
    | Violation(report: Report)
    | Rejection(refused: Report)
    | Subscribed(identity: Identity, topics: seq<string>)

  datatype Outcome = Allowed | Denied(reason: Report)

  function Noted(p: Policy, r: Report, e: Enforcement): seq<Note> {
    [Violation(r)] + (if e == Reject && p.reporting && r.who.Some? then [Rejection(r)] else [])
  }

  /** record: log the violation, and refuse it where the mode says so. */
  method Record(p: Policy, checked: Checked, name: Option<string>, op: Operation, messageType: string,
                before: seq<Note>)
    returns (r: Outcome, log: seq<Note>)
    ensures var report := Report(checked.verdict, name, op, messageType);
      && log == before + [Violation(report)]
                + (if checked.enforcement == Reject && p.reporting && name.Some? then [Rejection(report)] else [])
      && r == if checked.enforcement == Reject then Denied(report) else Allowed
  {
    var report := Report(checked.verdict, name, op, messageType);
    log := before + [Violation(report)];
    match checked.enforcement {
      case Accept => r := Allowed;
      case Warn => r := Allowed;
      case Reject =>
        if p.reporting && name.Some? {
          log := log + [Rejection(report)];
        }
        r := Denied(report);
    }
  }

  /** The topics of a batch outside the declarations, each as it is reported. */
  function Violations(p: Policy, name: Option<string>, topics: seq<string>): seq<Report> {
    if topics == [] then []
    else
      var v := Check(p.mode, p.table, name, Subscribe, topics[0]).verdict;
      (if IsViolation(v) then [Report(v, name, Subscribe, topics[0])] else []) + Violations(p, name, topics[1..])
  }

  function Warnings(reports: seq<Report>): seq<Note> {
    seq(|reports|, i requires 0 <= i < |reports| => Violation(reports[i]))
  }

  lemma {:induction false} ViolationsOfSum(p: Policy, name: Option<string>, a: seq<string>, b: seq<string>)
    ensures Violations(p, name, a + b) == Violations(p, name, a) + Violations(p, name, b)
  {
    hide Check;
    if a == [] {
      assert a + b == b;
    } else {
      assert (a + b)[1..] == a[1..] + b;
      ViolationsOfSum(p, name, a[1..], b);
      var v := Check(p.mode, p.table, name, Subscribe, a[0]).verdict;
      var head := if IsViolation(v) then [Report(v, name, Subscribe, a[0])] else [];
      assert head + (Violations(p, name, a[1..]) + Violations(p, name, b))
          == (head + Violations(p, name, a[1..])) + Violations(p, name, b);
    }
  }

  /** The topics of a batch that the declarations do not allow, in order, each with the
      reason it is reported with. */
  ghost function NotAllowed(t: Table, name: Option<string>, topics: seq<string>): seq<Report> {
    if topics == [] then []
    else
      (if Allows(t, name, Subscribe, topics[0]) then []
       else [Report(WhyNot(t, name, Subscribe), name, Subscribe, topics[0])])
      + NotAllowed(t, name, topics[1..])
  }

  lemma {:induction false} ViolationsAreTheNotAllowed(p: Policy, name: Option<string>, topics: seq<string>)
    ensures Violations(p, name, topics) == if p.mode == Off then [] else NotAllowed(p.table, name, topics)
  {
    hide Check, Allows, WhyNot;
    if topics != [] {
      CheckFindsViolations(p.mode, p.table, name, Subscribe, topics[0]);
      ViolationsAreTheNotAllowed(p, name, topics[1..]);
    }
  }

  /** A subscribe names no source, so only a name the engine gave counts. */
  function SubscriberOf(identity: Identity): Option<string> {
    match identity
    case Managed(name) => Some(name)
    case Unmanaged => None
  }

  lemma {:induction false} NotAllowedIsByName(t: Table, name: Option<string>, topics: seq<string>)
    ensures forall i :: 0 <= i < |NotAllowed(t, name, topics)| ==> NotAllowed(t, name, topics)[i].who == name
  {
    if topics != [] {
      NotAllowedIsByName(t, name, topics[1..]);
      hide Allows;
    }
  }

  /** A batch is judged as a whole, on the topics its primitive's declarations do not
      allow. In strict mode the first of them refuses it and is all that is reported;
      otherwise each is logged, unless enforcement is off, and the observers hear of the
      subscribe. */
  method AuthorizeSubscribe(p: Policy, identity: Identity, topics: seq<string>) returns (r: Outcome, log: seq<Note>)
    ensures var bad := if p.mode == Off then [] else NotAllowed(p.table, SubscriberOf(identity), topics);
      if p.mode == Strict && bad != [] then
        && r == Denied(bad[0])
        && log == [Violation(bad[0])]
                  + (if p.reporting && identity.Managed? then [Rejection(bad[0])] else [])
      else r == Allowed && log == Warnings(bad) + [Subscribed(identity, topics)]
  {
    ViolationsAreTheNotAllowed(p, SubscriberOf(identity), topics);
    NotAllowedIsByName(p.table, SubscriberOf(identity), topics);
    hide NotAllowed, Violations, Check, Warnings;
    var effective := EffectiveNameOf(identity, None, p.unmanaged);
    var name := effective.name;
    log := [];
    NoViolationsYet(p, name);
    for i := 0 to |topics|
      invariant log == Warnings(Violations(p, name, topics[..i]))
      invariant p.mode == Strict ==> Violations(p, name, topics[..i]) == []
    {
      OneMoreTopic(p, name, topics, i);
      var checked := Check(p.mode, p.table, name, Subscribe, topics[i]);
      if IsViolation(checked.verdict) {
        EnforcedByMode(p, name, topics[i]);
        var o;
        o, log := Record(p, checked, name, Subscribe, topics[i], log);
        if o.Denied? {
          return o, log;
        }
      }
    }
    assert topics[..|topics|] == topics;
    return Allowed, log + [Subscribed(identity, topics)];
  }

  lemma NoViolationsYet(p: Policy, name: Option<string>)
    ensures Violations(p, name, []) == [] && Warnings([]) == []
  {
  }

  lemma EnforcedByMode(p: Policy, name: Option<string>, topic: string)
    requires IsViolation(Check(p.mode, p.table, name, Subscribe, topic).verdict)
    ensures Check(p.mode, p.table, name, Subscribe, topic).enforcement == Reject <==> p.mode == Strict
  {
  }

  /** The batch's next topic: it adds its warning, or is what refuses the batch. */
  lemma OneMoreTopic(p: Policy, name: Option<string>, topics: seq<string>, i: nat)
    requires i < |topics|
    ensures var v := Check(p.mode, p.table, name, Subscribe, topics[i]).verdict;
      var before := Violations(p, name, topics[..i]);
      var report, now := Report(v, name, Subscribe, topics[i]), Violations(p, name, topics[..i + 1]);
      && now == before + (if IsViolation(v) then [report] else [])
      && Warnings(now) == Warnings(before) + (if IsViolation(v) then [Violation(report)] else [])
      && (before == [] && IsViolation(v) ==>
            Violations(p, name, topics) != [] && Violations(p, name, topics)[0] == report)
  {
    assert topics == topics[..i] + topics[i..] && topics[..i + 1] == topics[..i] + [topics[i]];
    assert topics[i..][0] == topics[i] && [topics[i]][1..] == [];
    ViolationsOfSum(p, name, topics[..i], topics[i..]);
    ViolationsOfSum(p, name, topics[..i], [topics[i]]);
    hide Check;
  }

  /** The reports a publish request gives rise to: a source that contradicts the name
      the engine gave the connection, and a type outside the declarations. A request
      that is not an Emergent publish has none. */
  function RequestViolations(p: Policy, identity: Identity, published: Option<string>, claimed: Option<string>)
    : seq<Report>
  {
    if published.None? then []
    else
      var effective := EffectiveNameOf(identity, claimed, p.unmanaged);
      var source := CheckSource(p.mode, effective.name, claimed).verdict;
      var v := Check(p.mode, p.table, effective.name, Publish, published.value).verdict;
      (if effective.trusted && IsViolation(source) then [Report(source, effective.name, Publish, published.value)]
       else [])
      + (if IsViolation(v) then [Report(v, effective.name, Publish, published.value)] else [])
  }

  /** An empty source is not a claim. */
  function ClaimedSource(source: Option<string>): Option<string> {
    if source == Some("") then None else source
  }

  /** The name a publish is held to: the one the engine gave, and else the source it
      writes, where such claims count and it writes one. */
  function PublisherOf(p: Policy, identity: Identity, source: Option<string>): Option<string> {
    match identity
    case Managed(name) => Some(name)
    case Unmanaged => if p.unmanaged == Claimed && source != Some("") then source else None
  }

  /** What is wrong with a publish: a managed primitive writes another's name, and the
      declarations of the name it is held to do not allow the type. */
  ghost function Faults(p: Policy, identity: Identity, messageType: string, source: Option<string>): seq<Report> {
    var name := PublisherOf(p, identity, source);
    (if identity.Managed? && source.Some? && source.value != "" && source.value != identity.name
     then [Report(SourceMismatch, name, Publish, messageType)] else [])
    + (if Allows(p.table, name, Publish, messageType) then []
       else [Report(WhyNot(p.table, name, Publish), name, Publish, messageType)])
  }

  lemma RequestViolationsAreTheFaults(p: Policy, identity: Identity, messageType: string, source: Option<string>)
    ensures RequestViolations(p, identity, Some(messageType), ClaimedSource(source))
         == if p.mode == Off then [] else Faults(p, identity, messageType, source)
  {
    CheckFindsViolations(p.mode, p.table, PublisherOf(p, identity, source), Publish, messageType);
    hide Check, Allows, WhyNot;
  }

  /** A request that is not an Emergent publish passes. A publish is refused in strict
      mode for the first thing wrong with it, and passes otherwise, with each logged
      unless enforcement is off. */
  method AuthorizeRequest(p: Policy, identity: Identity, published: Option<string>, source: Option<string>)
    returns (r: Outcome, log: seq<Note>)
    ensures var bad := if p.mode == Off || published.None? then [] else Faults(p, identity, published.value, source);
      if p.mode == Strict && bad != [] then
        && r == Denied(bad[0])
        && log == [Violation(bad[0])]
                  + (if p.reporting && PublisherOf(p, identity, source).Some? then [Rejection(bad[0])] else [])
      else r == Allowed && log == Warnings(bad)
  {
    log := [];
    if published.None? {
      return Allowed, log;
    }
    RequestViolationsAreTheFaults(p, identity, published.value, source);
    hide Faults;
    var claimed := ClaimedSource(source);
    var effective := EffectiveNameOf(identity, claimed, p.unmanaged);
    var messageType := published.value;
    var o;
    if effective.trusted {
      var sourceCheck := CheckSource(p.mode, effective.name, claimed);
      if IsViolation(sourceCheck.verdict) {
        o, log := Record(p, sourceCheck, effective.name, Publish, messageType, log);
        if o.Denied? {
          return o, log;
        }
      }
    }
    var checked := Check(p.mode, p.table, effective.name, Publish, messageType);
    if IsViolation(checked.verdict) {
      o, log := Record(p, checked, effective.name, Publish, messageType, log);
      if o.Denied? {
        return o, log;
      }
    }
    return Allowed, log;
  }

  // ---------------------------------------------------------------------
  // What strict mode guarantees
  // ---------------------------------------------------------------------

  lemma {:induction false} AllAllowed(t: Table, name: Option<string>, topics: seq<string>)
    ensures NotAllowed(t, name, topics) == [] <==>
      forall i :: 0 <= i < |topics| ==> Allows(t, name, Subscribe, topics[i])
  {
    if topics != [] {
      AllAllowed(t, name, topics[1..]);
      hide Allows, WhyNot;
      assert forall i :: 0 < i < |topics| ==> topics[i] == topics[1..][i - 1];
    }
  }

  /** A batch that strict mode authorizes covers everything it can bring: each message
      type that any of its topics matches is a protocol topic, or one that the
      connection's own primitive, which is not a source, declares. */
  lemma AuthorizedBatchesAreCovered(t: Table, identity: Identity, topics: seq<string>, topic: string,
                                    messageType: string)
    requires NotAllowed(t, SubscriberOf(identity), topics) == []
    requires topic in topics && TopicMatches(topic, messageType)
    ensures Allows(t, SubscriberOf(identity), Subscribe, messageType)
  {
    var name := SubscriberOf(identity);
    AllAllowed(t, name, topics);
    var i :| 0 <= i < |topics| && topics[i] == topic;
    assert Allows(t, name, Subscribe, topic);
    hide NotAllowed;
    if '*' in topic || topic != messageType {
      assert topic !in {"system.shutdown", "system.response.subscriptions", "system.response.topology"} by {
        NoStarsInProtocol(topic, messageType);
      }
      var declared := t[name.value].subscribes;
      var k :| 0 <= k < |declared| && Covers(declared[k], topic);
      CoveringATopicCoversItsMatches(declared[k], topic, messageType);
    }
  }

  lemma NoStarsInProtocol(topic: string, messageType: string)
    requires TopicMatches(topic, messageType) && ('*' in topic || topic != messageType)
    ensures topic !in {"system.shutdown", "system.response.subscriptions", "system.response.topology"}
  {
  }

  /** And no batch it refuses could have been let through: what it is refused for is its
      first topic that the declarations do not allow. */
  lemma {:induction false} RefusedBatchesAreNotAllowed(t: Table, name: Option<string>, topics: seq<string>)
    returns (i: nat)
    requires NotAllowed(t, name, topics) != []
    ensures i < |topics| && !Allows(t, name, Subscribe, topics[i])
    ensures forall j :: 0 <= j < i ==> Allows(t, name, Subscribe, topics[j])
    ensures NotAllowed(t, name, topics)[0] == Report(WhyNot(t, name, Subscribe), name, Subscribe, topics[i])
  {
    hide Allows, WhyNot;
    if Allows(t, name, Subscribe, topics[0]) {
      i := RefusedBatchesAreNotAllowed(t, name, topics[1..]);
      i := i + 1;
    } else {
      i := 0;
    }
  }

  /** Strict mode lets a primitive publish exactly what it declares, or protocol, and
      only in its own name; and one the engine cannot name, where claims count, exactly
      what the name it writes declares, or protocol. */
  lemma AuthorizedPublishesAreOwn(p: Policy, name: string, messageType: string, source: Option<string>)
    requires p.mode == Strict
    ensures RequestViolations(p, Managed(name), Some(messageType), ClaimedSource(source)) == [] <==>
      && (source == None || source == Some("") || source == Some(name))
      && Allows(p.table, Some(name), Publish, messageType)
    ensures p.unmanaged == Claimed && name != "" ==>
      (RequestViolations(p, Unmanaged, Some(messageType), ClaimedSource(Some(name))) == [] <==>
        Allows(p.table, Some(name), Publish, messageType))
  {
    RequestViolationsAreTheFaults(p, Managed(name), messageType, source);
    RequestViolationsAreTheFaults(p, Unmanaged, messageType, Some(name));
    hide Allows, WhyNot, RequestViolations;
  }

  /** A connection the engine cannot name, where claims are ignored, may do exactly
      what the protocol needs, whatever name it writes. */
  lemma StrangersGetOnlyProtocol(p: Policy, topics: seq<string>, messageType: string, source: Option<string>)
    requires p.mode == Strict && p.unmanaged == Ignored
    ensures Violations(p, SubscriberOf(Unmanaged), topics) == [] <==>
      forall i :: 0 <= i < |topics| ==>
        topics[i] in {"system.shutdown", "system.response.subscriptions", "system.response.topology"}
    ensures RequestViolations(p, Unmanaged, Some(messageType), ClaimedSource(source)) == [] <==>
      messageType in {"system.request.subscriptions", "system.request.topology"}
  {
    ViolationsAreTheNotAllowed(p, None, topics);
    AllAllowed(p.table, None, topics);
    RequestViolationsAreTheFaults(p, Unmanaged, messageType, source);
    hide Violations, RequestViolations, NotAllowed;
    forall i | 0 <= i < |topics|
      ensures Allows(p.table, None, Subscribe, topics[i])
        <==> topics[i] in {"system.shutdown", "system.response.subscriptions", "system.response.topology"}
    {
    }
    hide Allows;
  }
}
