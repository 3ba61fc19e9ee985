/** Subscription topics and their wildcards, as the SDKs and the engine share them.
    A character stands for one byte of the UTF-8 text; lengths are in bytes. */
module Topics {
  import opened Options

  const MAX_PATTERN_LEN: nat := 256

  datatype TopicKind = Exact | Pattern

  datatype InvalidTopic = EmptyTopic | MisplacedWildcard(topic: string) | PatternTooLong(topic: string, length: nat)

  datatype Classified = Usable(kind: TopicKind) | Unusable(why: InvalidTopic)

  /** The literal text before a terminal wildcard. */
  function PatternPrefix(topic: string): Option<string> {
    if topic == [] || topic[|topic| - 1] != '*' || '*' in topic[..|topic| - 1] then None
    else Some(topic[..|topic| - 1])
  }

  function ClassifyTopic(topic: string): Classified {
    if topic == [] then Unusable(EmptyTopic)
    else if '*' !in topic then Usable(Exact)
    else if PatternPrefix(topic).None? then Unusable(MisplacedWildcard(topic))
    else if |topic| > MAX_PATTERN_LEN then Unusable(PatternTooLong(topic, |topic|))
    else Usable(Pattern)
  }

  predicate TopicMatches(topic: string, messageType: string) {
    match PatternPrefix(topic)
    case None => '*' !in topic && topic == messageType
    case Some(prefix) => prefix <= messageType
  }

  /** The topic is this text with a star at its end, and no other. */
  predicate Stars(prefix: string, topic: string) { topic == prefix + "*" && '*' !in prefix }

  ghost predicate EndsInItsStar(topic: string) { exists prefix :: Stars(prefix, topic) }

  lemma PrefixIsBeforeTheStar(topic: string, prefix: string)
    ensures PatternPrefix(topic) == Some(prefix) <==> Stars(prefix, topic)
  {
    if Stars(prefix, topic) {
      assert topic[..|topic| - 1] == prefix;
    }
  }

  /** How a topic is classified, told on its text: an exact one has no star, a pattern
      has one, at its end, and at most 256 bytes; and why the others cannot be used. */
  lemma TopicsAreClassifiedByText(topic: string)
    ensures ClassifyTopic(topic) == Usable(Exact) <==> topic != [] && '*' !in topic
    ensures ClassifyTopic(topic) == Usable(Pattern) <==> EndsInItsStar(topic) && |topic| <= 256
    ensures ClassifyTopic(topic) == Unusable(EmptyTopic) <==> topic == []
    ensures ClassifyTopic(topic) == Unusable(PatternTooLong(topic, |topic|)) <==> EndsInItsStar(topic) && |topic| > 256
    ensures ClassifyTopic(topic) == Unusable(MisplacedWildcard(topic)) <==> '*' in topic && !EndsInItsStar(topic)
  {
    if PatternPrefix(topic).Some? {
      PrefixIsBeforeTheStar(topic, PatternPrefix(topic).value);
    }
    if prefix :| Stars(prefix, topic) {
      PrefixIsBeforeTheStar(topic, prefix);
    }
  }

  /** What a topic matches, told on the texts: its own text when it has no star, and
      everything that begins with what stands before its one star when that is last. */
  lemma TopicsMatchByText(topic: string, messageType: string)
    ensures TopicMatches(topic, messageType) <==>
      || (topic == messageType && '*' !in topic)
      || exists prefix :: Stars(prefix, topic) && |prefix| <= |messageType| && messageType[..|prefix|] == prefix
  {
    if PatternPrefix(topic).Some? {
      PrefixIsBeforeTheStar(topic, PatternPrefix(topic).value);
    }
    if prefix :| Stars(prefix, topic) {
      PrefixIsBeforeTheStar(topic, prefix);
    }
  }

  /** A topic matches something exactly when its wildcard, if any, is in place; and
      then it matches its own text. */
  lemma MatchesSomethingOrMisplaced(topic: string)
    ensures TopicMatches(topic, topic) <==> ('*' !in topic || PatternPrefix(topic).Some?)
    ensures (exists m :: TopicMatches(topic, m)) <==> TopicMatches(topic, topic)
  {
  }

  // ---------------------------------------------------------------------
  // Splitting a request
  // ---------------------------------------------------------------------

  datatype Partition = Split(exact: seq<string>, patterns: seq<string>) | BadTopic(index: nat, why: InvalidTopic)

  function OfKind(topics: seq<string>, kind: TopicKind): seq<string> {
    if topics == [] then []
    else
      OfKind(topics[..|topics| - 1], kind)
      + (if ClassifyTopic(topics[|topics| - 1]) == Usable(kind) then [topics[|topics| - 1]] else [])
  }

  /** The first topic that cannot be used refuses them all; otherwise each topic goes
      to its own list, in the caller's order, duplicates kept. */
  method PartitionTopics(topics: seq<string>) returns (p: Partition)
    ensures p.BadTopic? ==>
      && p.index < |topics| && ClassifyTopic(topics[p.index]) == Unusable(p.why)
      && forall i :: 0 <= i < p.index ==> ClassifyTopic(topics[i]).Usable?
    ensures p.Split? ==>
      && (forall i :: 0 <= i < |topics| ==> ClassifyTopic(topics[i]).Usable?)
      && p.exact == OfKind(topics, Exact) && p.patterns == OfKind(topics, Pattern)
  {
    var exact: seq<string>, patterns: seq<string> := [], [];
    for i := 0 to |topics|
      invariant forall k :: 0 <= k < i ==> ClassifyTopic(topics[k]).Usable?
      invariant exact == OfKind(topics[..i], Exact) && patterns == OfKind(topics[..i], Pattern)
    {
      assert topics[..i + 1][..i] == topics[..i];
      match ClassifyTopic(topics[i]) {
        case Unusable(why) => return BadTopic(i, why);
        case Usable(kind) =>
          if kind == Exact {
            exact := exact + [topics[i]];
          } else {
            patterns := patterns + [topics[i]];
          }
      }
    }
    assert topics[..|topics|] == topics;
    p := Split(exact, patterns);
  }

  lemma {:induction false} OfKindHolds(topics: seq<string>, kind: TopicKind, topic: string)
    ensures topic in OfKind(topics, kind) <==> topic in topics && ClassifyTopic(topic) == Usable(kind)
  {
    hide ClassifyTopic;
    if topics != [] {
      OfKindHolds(topics[..|topics| - 1], kind, topic);
      assert topics == topics[..|topics| - 1] + [topics[|topics| - 1]];
    }
  }

  /** Which of the first i topics are of this kind. */
  ghost function Before(topics: seq<string>, kind: TopicKind, i: nat): set<nat>
    requires i <= |topics|
  {
    set j: nat | j < i && ClassifyTopic(topics[j]) == Usable(kind)
  }

  lemma BeforeOneMore(topics: seq<string>, kind: TopicKind, i: nat)
    requires i < |topics|
    ensures |Before(topics, kind, i + 1)|
         == |Before(topics, kind, i)| + if ClassifyTopic(topics[i]) == Usable(kind) then 1 else 0
  {
    hide ClassifyTopic;
    assert Before(topics, kind, i + 1)
        == if ClassifyTopic(topics[i]) == Usable(kind) then Before(topics, kind, i) + {i} else Before(topics, kind, i);
  }

  lemma {:induction false} PartSize(topics: seq<string>, kind: TopicKind, i: nat)
    requires i <= |topics|
    ensures |OfKind(topics[..i], kind)| == |Before(topics, kind, i)|
  {
    hide ClassifyTopic;
    if i == 0 {
      assert Before(topics, kind, 0) == {};
    } else {
      PartSize(topics, kind, i - 1);
      BeforeOneMore(topics, kind, i - 1);
      hide Before;
      assert topics[..i][..i - 1] == topics[..i - 1];
    }
  }

  lemma {:induction false} PartGrows(topics: seq<string>, kind: TopicKind, i: nat)
    requires i <= |topics|
    ensures OfKind(topics[..i], kind) <= OfKind(topics, kind)
    decreases |topics| - i
  {
    if i == |topics| {
      assert topics[..i] == topics;
    } else {
      assert topics[..i + 1][..i] == topics[..i];
      PartGrows(topics, kind, i + 1);
    }
  }

  lemma PartAt(topics: seq<string>, kind: TopicKind, i: nat)
    requires i < |topics| && ClassifyTopic(topics[i]) == Usable(kind)
    ensures var place := |Before(topics, kind, i)|;
      place < |OfKind(topics, kind)| && OfKind(topics, kind)[place] == topics[i]
  {
    PartSize(topics, kind, i);
    hide ClassifyTopic, Before;
    assert topics[..i + 1][..i] == topics[..i];
    PartGrows(topics, kind, i + 1);
  }

  /** Each topic of a kind is in its list at the place that the number of such topics
      before it gives, so in the caller's order and as often as the caller has it, and
      nothing else is in the list. */
  lemma PartsKeepTheOrder(topics: seq<string>, kind: TopicKind)
    ensures |OfKind(topics, kind)| == |set j: nat | j < |topics| && ClassifyTopic(topics[j]) == Usable(kind)|
    ensures forall i :: 0 <= i < |topics| && ClassifyTopic(topics[i]) == Usable(kind) ==>
      var place := |set j: nat | j < i && ClassifyTopic(topics[j]) == Usable(kind)|;
      place < |OfKind(topics, kind)| && OfKind(topics, kind)[place] == topics[i]
  {
    PartSize(topics, kind, |topics|);
    assert topics[..|topics|] == topics;
    hide ClassifyTopic, OfKind;
    forall i | 0 <= i < |topics| && ClassifyTopic(topics[i]) == Usable(kind)
      ensures |Before(topics, kind, i)| < |OfKind(topics, kind)|
      ensures OfKind(topics, kind)[|Before(topics, kind, i)|] == topics[i]
    {
      PartAt(topics, kind, i);
    }
  }

  ghost predicate MatchedBySome(topics: seq<string>, messageType: string) {
    exists t :: t in topics && TopicMatches(t, messageType)
  }

  ghost predicate PrefixedBySome(patterns: seq<string>, messageType: string) {
    exists t :: t in patterns && PatternPrefix(t).Some? && PatternPrefix(t).value <= messageType
  }

  /** A split request asks for the same messages as the topics it came from: by name
      for the exact ones, by prefix for the patterns. */
  lemma SplitMeansTheSame(topics: seq<string>, messageType: string)
    requires forall i :: 0 <= i < |topics| ==> ClassifyTopic(topics[i]).Usable?
    ensures MatchedBySome(topics, messageType)
       <==> messageType in OfKind(topics, Exact) || PrefixedBySome(OfKind(topics, Pattern), messageType)
  {
    hide OfKind;
    OfKindHolds(topics, Exact, messageType);
    if MatchedBySome(topics, messageType) {
      var t :| t in topics && TopicMatches(t, messageType);
      OfKindHolds(topics, Exact, t);
      OfKindHolds(topics, Pattern, t);
    }
    var patterns := OfKind(topics, Pattern);
    if PrefixedBySome(patterns, messageType) {
      var t :| t in patterns && PatternPrefix(t).Some? && PatternPrefix(t).value <= messageType;
      OfKindHolds(topics, Pattern, t);
    }
  }
}
