/** Which events an agent subscribes to on each channel: the batch resolver and its one-channel twin. */
module ChannelFilters {
  import opened Options

  type Kind = k: int | 0 <= k < 0x1_0000_0000

  const STREAM_MESSAGE: Kind := 9
  const WORKFLOW_APPROVAL_REQUESTED: Kind := 46010
  const STREAM_REMINDER: Kind := 40007
  const AGENT_USER_INPUT_ANSWER: Kind := 46041
  const CONTACT_DECISION: Kind := 46044

  const DEFAULT_KINDS: seq<Kind> :=
    [STREAM_MESSAGE, WORKFLOW_APPROVAL_REQUESTED, STREAM_REMINDER, AGENT_USER_INPUT_ANSWER, CONTACT_DECISION]

  datatype Scope = Word(word: string) | Listed(ids: seq<string>)

  datatype Rule = Rule(channels: Scope, kinds: seq<Kind>, requireMention: bool)

  /** No list of kinds means every kind. */
  datatype Filter = Filter(kinds: Option<seq<Kind>>, requireMention: bool)

  datatype Mode = Mentions | Everything | ByRules

  datatype Config = Config(
    mode: Mode, channels: Option<seq<string>>, kinds: Option<seq<Kind>>, noMentionFilter: bool)

  type Parser = string -> Option<Uuid>

  predicate Names(parse: Parser, ids: seq<string>, channel: Uuid) {
    exists i :: 0 <= i < |ids| && parse(ids[i]) == Some(channel)
  }

  predicate Applies(parse: Parser, rule: Rule, channel: Uuid) {
    match rule.channels
    case Word(w) => w == "all"
    case Listed(ids) => Names(parse, ids, channel)
  }

  /** A rule applies to every channel if its scope is the word `all` and to none if it is another word; one with a list
      applies to the channels some entry parses to. */
  lemma ScopeMeans(parse: Parser, kinds: seq<Kind>, requireMention: bool, channel: Uuid, word: string, ids: seq<string>)
    ensures Applies(parse, Rule(Word("all"), kinds, requireMention), channel)
    ensures word != "all" ==> !Applies(parse, Rule(Word(word), kinds, requireMention), channel)
    ensures Applies(parse, Rule(Listed(ids), kinds, requireMention), channel) <==> exists id :: id in ids && parse(id) == Some(channel)
  {
    if id :| id in ids && parse(id) == Some(channel) {
      var i :| 0 <= i < |ids| && ids[i] == id;
      assert parse(ids[i]) == Some(channel);
    }
  }

  // ---------- merging rules ----------

  /** The list with the kinds it does not hold yet added at its end, in their order. */
  function AddKinds(kinds: seq<Kind>, more: seq<Kind>): seq<Kind> {
    if more == [] then kinds
    else
      var front := AddKinds(kinds, more[..|more| - 1]);
      var k := more[|more| - 1];
      if k in front then front else front + [k]
  }

  datatype Merging = Merging(kinds: Option<seq<Kind>>, requireMention: bool, hasRule: bool)

  function AddRule(m: Merging, rule: Rule): Merging {
    Merging(
      if rule.kinds == [] then None
      else match m.kinds { case None => None case Some(ks) => Some(AddKinds(ks, rule.kinds)) },
      m.requireMention && rule.requireMention,
      true)
  }

  function Merged(parse: Parser, rules: seq<Rule>, channel: Uuid): Merging {
    if rules == [] then Merging(Some([]), true, false)
    else
      var front := Merged(parse, rules[..|rules| - 1], channel);
      var rule := rules[|rules| - 1];
      if Applies(parse, rule, channel) then AddRule(front, rule) else front
  }

  // ---------- the two resolvers ----------

  /** The operator's channels that parse and were discovered. */
  function Targets(parse: Parser, overrides: seq<string>, discovered: seq<Uuid>): seq<Uuid> {
    if overrides == [] then []
    else
      var front := Targets(parse, overrides[..|overrides| - 1], discovered);
      match parse(overrides[|overrides| - 1])
      case Some(id) => if id in discovered then front + [id] else front
      case None => front
  }

  function TargetChannels(parse: Parser, config: Config, discovered: seq<Uuid>): seq<Uuid> {
    match config.channels
    case Some(overrides) => Targets(parse, overrides, discovered)
    case None => discovered
  }

  function MentionFilter(config: Config): Filter {
    Filter(Some(match config.kinds { case Some(ks) => ks case None => DEFAULT_KINDS }), !config.noMentionFilter)
  }

  /** Filters for every discovered channel at once. */
  function BatchFilters(parse: Parser, config: Config, discovered: seq<Uuid>, rules: seq<Rule>): map<Uuid, Filter> {
    var targets := TargetChannels(parse, config, discovered);
    match config.mode
    case Mentions => map ch | ch in targets :: MentionFilter(config)
    case Everything => map ch | ch in targets :: Filter(config.kinds, false)
    case ByRules =>
      map ch | ch in discovered && Merged(parse, rules, ch).hasRule ::
        Filter(Merged(parse, rules, ch).kinds, Merged(parse, rules, ch).requireMention)
  }

  /** The filter for one channel that turned up later. */
  function DynamicFilter(parse: Parser, config: Config, channel: Uuid, rules: seq<Rule>): Option<Filter> {
    if config.mode != ByRules && config.channels.Some? && !Names(parse, config.channels.value, channel) then None
    else
      match config.mode
      case Mentions => Some(MentionFilter(config))
      case Everything => Some(Filter(config.kinds, false))
      case ByRules =>
        var m := Merged(parse, rules, channel);
        if m.hasRule then Some(Filter(m.kinds, m.requireMention)) else None
  }

  lemma {:induction false} TargetsAreNamed(parse: Parser, overrides: seq<string>, discovered: seq<Uuid>, ch: Uuid)
    ensures ch in Targets(parse, overrides, discovered) <==> ch in discovered && Names(parse, overrides, ch)
    decreases |overrides|
  {
    if overrides != [] {
      var front, last := overrides[..|overrides| - 1], |overrides| - 1;
      TargetsAreNamed(parse, front, discovered, ch);
      forall i | 0 <= i < last ensures front[i] == overrides[i] {
      }
      assert Names(parse, front, ch) ==> Names(parse, overrides, ch) by {
        if Names(parse, front, ch) {
          var i :| 0 <= i < |front| && parse(front[i]) == Some(ch);
          assert parse(overrides[i]) == Some(ch);
        }
      }
      assert parse(overrides[last]) == Some(ch) ==> Names(parse, overrides, ch);
    }
  }

  /** The two resolvers agree on every discovered channel, and the batch one speaks of no other. */
  lemma ResolversAgree(parse: Parser, config: Config, discovered: seq<Uuid>, rules: seq<Rule>, ch: Uuid)
    ensures var batch := BatchFilters(parse, config, discovered, rules);
      && (ch !in discovered ==> ch !in batch)
      && (ch in discovered ==>
            && (ch in batch <==> DynamicFilter(parse, config, ch, rules).Some?)
            && (ch in batch ==> DynamicFilter(parse, config, ch, rules) == Some(batch[ch])))
  {
    if config.channels.Some? {
      TargetsAreNamed(parse, config.channels.value, discovered, ch);
    }
  }

  // ---------- what a merged filter means ----------

  predicate Admits(f: Filter, kind: Kind, mentioned: bool) {
    (f.kinds.None? || kind in f.kinds.value) && (f.requireMention ==> mentioned)
  }

  predicate RuleAdmits(rule: Rule, kind: Kind, mentioned: bool) {
    (rule.kinds == [] || kind in rule.kinds) && (rule.requireMention ==> mentioned)
  }

  /** Every event a rule for this channel would take gets past the filter. */
  ghost predicate CoversRules(parse: Parser, f: Filter, rules: seq<Rule>, ch: Uuid) {
    forall i, kind, mentioned :: 0 <= i < |rules| && Applies(parse, rules[i], ch) && RuleAdmits(rules[i], kind, mentioned) ==>
      Admits(f, kind, mentioned)
  }

  /** What each mode that ignores the rules subscribes to: a channel is in scope unless the operator listed others; mentions
      mode takes the operator's kinds, or the five default ones, and needs a mention unless told otherwise; the other mode
      takes the operator's kinds, or all, with or without a mention. */
  lemma ModesAdmit(parse: Parser, config: Config, ch: Uuid, rules: seq<Rule>, kind: Kind, mentioned: bool)
    requires config.mode != ByRules
    ensures DynamicFilter(parse, config, ch, rules).Some? <==>
      config.channels.None? || exists i :: 0 <= i < |config.channels.value| && parse(config.channels.value[i]) == Some(ch)
    ensures DynamicFilter(parse, config, ch, rules).Some? ==>
      (Admits(DynamicFilter(parse, config, ch, rules).value, kind, mentioned) <==>
         if config.mode == Mentions then
           && (if config.kinds.Some? then kind in config.kinds.value else kind in {9, 46010, 40007, 46041, 46044})
           && (mentioned || config.noMentionFilter)
         else config.kinds.None? || kind in config.kinds.value)
  {
  }

  predicate NoRepeats(s: seq<Kind>) {
    forall i, j :: 0 <= i < j < |s| ==> s[i] != s[j]
  }

  lemma {:induction false} AddKindsMeans(kinds: seq<Kind>, more: seq<Kind>)
    ensures forall k: Kind :: k in AddKinds(kinds, more) <==> k in kinds || k in more
    ensures NoRepeats(kinds) ==> NoRepeats(AddKinds(kinds, more))
    decreases |more|
  {
    if more != [] {
      AddKindsMeans(kinds, more[..|more| - 1]);
      assert more == more[..|more| - 1] + [more[|more| - 1]];
    }
  }

  ghost predicate SomeRule(parse: Parser, rules: seq<Rule>, ch: Uuid) {
    exists r :: r in rules && Applies(parse, r, ch)
  }

  ghost predicate SomeWildcard(parse: Parser, rules: seq<Rule>, ch: Uuid) {
    exists r :: r in rules && Applies(parse, r, ch) && r.kinds == []
  }

  ghost predicate SomeUnmentioned(parse: Parser, rules: seq<Rule>, ch: Uuid) {
    exists r :: r in rules && Applies(parse, r, ch) && !r.requireMention
  }

  ghost predicate SomeKind(parse: Parser, rules: seq<Rule>, ch: Uuid, k: Kind) {
    exists r :: r in rules && Applies(parse, r, ch) && k in r.kinds
  }

  ghost predicate Meaning(parse: Parser, rules: seq<Rule>, ch: Uuid, m: Merging) {
    && (m.hasRule <==> SomeRule(parse, rules, ch))
    && (m.kinds.None? <==> SomeWildcard(parse, rules, ch))
    && (m.requireMention <==> !SomeUnmentioned(parse, rules, ch))
    && (m.kinds.Some? ==> NoRepeats(m.kinds.value))
    && (m.kinds.Some? ==> forall k: Kind :: k in m.kinds.value <==> SomeKind(parse, rules, ch, k))
  }

  lemma OneMore(parse: Parser, front: seq<Rule>, rule: Rule, ch: Uuid)
    ensures var all := front + [rule]; var here := Applies(parse, rule, ch);
      && (SomeRule(parse, all, ch) <==> SomeRule(parse, front, ch) || here)
      && (SomeWildcard(parse, all, ch) <==> SomeWildcard(parse, front, ch) || (here && rule.kinds == []))
      && (SomeUnmentioned(parse, all, ch) <==> SomeUnmentioned(parse, front, ch) || (here && !rule.requireMention))
      && (forall k: Kind :: SomeKind(parse, all, ch, k) <==> SomeKind(parse, front, ch, k) || (here && k in rule.kinds))
  {
    var all := front + [rule];
    assert forall r :: r in all <==> r in front || r == rule;
    assert rule in all;
  }

  /** A merged filter in terms of the set of rules alone. */
  lemma {:induction false} MergedMeans(parse: Parser, rules: seq<Rule>, ch: Uuid)
    ensures Meaning(parse, rules, ch, Merged(parse, rules, ch))
    decreases |rules|
  {
    hide Applies, SomeRule, SomeWildcard, SomeUnmentioned, SomeKind, AddKinds, NoRepeats;
    if rules == [] {
      NoRules(parse, ch);
    } else {
      var front, rule := rules[..|rules| - 1], rules[|rules| - 1];
      assert rules == front + [rule];
      MergedMeans(parse, front, ch);
      OneMore(parse, front, rule, ch);
      var m := Merged(parse, front, ch);
      if m.kinds.Some? {
        AddKindsMeans(m.kinds.value, rule.kinds);
      }
    }
  }

  lemma NoRules(parse: Parser, ch: Uuid)
    ensures Meaning(parse, [], ch, Merging(Some([]), true, false))
  {
  }

  /** The filter chosen from the rules lets through everything an applicable rule takes, and any filter that does
      so lets through everything this one does. */
  lemma RuleFilterIsLeast(parse: Parser, config: Config, ch: Uuid, rules: seq<Rule>, other: Filter)
    requires config.mode == ByRules
    ensures DynamicFilter(parse, config, ch, rules).Some? <==> SomeRule(parse, rules, ch)
    ensures DynamicFilter(parse, config, ch, rules).Some? ==>
      var f := DynamicFilter(parse, config, ch, rules).value;
      && CoversRules(parse, f, rules, ch)
      && (f.kinds.Some? ==> NoRepeats(f.kinds.value))
      && (CoversRules(parse, other, rules, ch) ==>
            forall kind, mentioned :: Admits(f, kind, mentioned) ==> Admits(other, kind, mentioned))
  {
    MergedMeans(parse, rules, ch);
    var m := Merged(parse, rules, ch);
    if m.hasRule {
      var f := Filter(m.kinds, m.requireMention);
      MeaningCovers(parse, rules, ch, m);
      if CoversRules(parse, other, rules, ch) {
        forall kind, mentioned | Admits(f, kind, mentioned) ensures Admits(other, kind, mentioned) {
          MeaningIsLeast(parse, rules, ch, m, other, kind, mentioned);
        }
      }
    }
  }

  lemma MeaningCovers(parse: Parser, rules: seq<Rule>, ch: Uuid, m: Merging)
    requires Meaning(parse, rules, ch, m)
    ensures CoversRules(parse, Filter(m.kinds, m.requireMention), rules, ch)
  {
    hide NoRepeats, Applies;
    forall i, kind, mentioned | 0 <= i < |rules| && Applies(parse, rules[i], ch) && RuleAdmits(rules[i], kind, mentioned)
      ensures Admits(Filter(m.kinds, m.requireMention), kind, mentioned)
    {
      var r := rules[i];
      assert r in rules;
      if m.kinds.Some? {
        assert r.kinds != [];
        assert SomeKind(parse, rules, ch, kind);
      }
    }
  }

  lemma MeaningIsLeast(
    parse: Parser, rules: seq<Rule>, ch: Uuid, m: Merging, other: Filter, kind: Kind, mentioned: bool)
    requires Meaning(parse, rules, ch, m) && m.hasRule
    requires CoversRules(parse, other, rules, ch)
    requires Admits(Filter(m.kinds, m.requireMention), kind, mentioned)
    ensures Admits(other, kind, mentioned)
  {
    hide NoRepeats, Applies;
    assert exists r :: r in rules && Applies(parse, r, ch) && RuleAdmits(r, kind, true) by {
      if m.kinds.None? {
        var r :| r in rules && Applies(parse, r, ch) && r.kinds == [];
        assert RuleAdmits(r, kind, true);
      } else {
        assert SomeKind(parse, rules, ch, kind);
        var r :| r in rules && Applies(parse, r, ch) && kind in r.kinds;
        assert RuleAdmits(r, kind, true);
      }
    }
    var r :| r in rules && Applies(parse, r, ch) && RuleAdmits(r, kind, true);
    var i :| 0 <= i < |rules| && rules[i] == r;
    assert Admits(other, kind, true);
    if !mentioned {
      var q :| q in rules && Applies(parse, q, ch) && !q.requireMention;
      var j :| 0 <= j < |rules| && rules[j] == q;
      var k: Kind := if q.kinds == [] then kind else q.kinds[0];
      assert RuleAdmits(rules[j], k, false);
      assert Admits(other, k, false);
    }
  }

  /** Equal but for the order in which kinds are listed. */
  predicate SameButForOrder(f: Option<Filter>, g: Option<Filter>) {
    match (f, g)
    case (None, None) => true
    case (Some(a), Some(b)) =>
      && a.requireMention == b.requireMention
      && (match (a.kinds, b.kinds)
          case (None, None) => true
          case (Some(s), Some(t)) => multiset(s) == multiset(t)
          case _ => false)
    case _ => false
  }

  lemma {:induction false} SameKindsSameBag(s: seq<Kind>, t: seq<Kind>)
    requires NoRepeats(s) && NoRepeats(t)
    requires forall k: Kind :: k in s <==> k in t
    ensures multiset(s) == multiset(t)
  {
    forall k: Kind ensures multiset(s)[k] == multiset(t)[k] {
      OnceEach(s, k);
      OnceEach(t, k);
    }
  }

  lemma {:induction false} OnceEach(s: seq<Kind>, k: Kind)
    requires NoRepeats(s)
    ensures multiset(s)[k] == if k in s then 1 else 0
    decreases |s|
  {
    if s != [] {
      var front, last := s[..|s| - 1], s[|s| - 1];
      assert s == front + [last];
      OnceEach(front, k);
      assert last !in front;
    }
  }

  /** Only the set of rules that apply matters: neither their order, nor repeats, nor the others. */
  lemma RuleOrderIsIrrelevant(parse: Parser, config: Config, ch: Uuid, rules: seq<Rule>, again: seq<Rule>)
    requires config.mode == ByRules
    requires forall r :: Applies(parse, r, ch) ==> (r in rules <==> r in again)
    ensures SameButForOrder(DynamicFilter(parse, config, ch, rules), DynamicFilter(parse, config, ch, again))
  {
    hide Applies, NoRepeats;
    MergedMeans(parse, rules, ch);
    MergedMeans(parse, again, ch);
    var m, n := Merged(parse, rules, ch), Merged(parse, again, ch);
    assert SomeRule(parse, rules, ch) <==> SomeRule(parse, again, ch);
    assert SomeWildcard(parse, rules, ch) <==> SomeWildcard(parse, again, ch);
    assert SomeUnmentioned(parse, rules, ch) <==> SomeUnmentioned(parse, again, ch);
    if m.kinds.Some? {
      forall k: Kind ensures k in m.kinds.value <==> k in n.kinds.value {
        assert SomeKind(parse, rules, ch, k) <==> SomeKind(parse, again, ch, k);
      }
      SameKindsSameBag(m.kinds.value, n.kinds.value);
    }
  }

  // ---------- the loops ----------

  method PushNewKinds(kinds: seq<Kind>, more: seq<Kind>) returns (merged: seq<Kind>)
    ensures merged == AddKinds(kinds, more)
  {
    merged := kinds;
    for i := 0 to |more|
      invariant merged == AddKinds(kinds, more[..i])
    {
      assert more[..i + 1][..i] == more[..i];
      if more[i] !in merged {
        merged := merged + [more[i]];
      }
    }
    assert more[..|more|] == more;
  }

  method ResolveDynamicChannelFilter(parse: Parser, config: Config, channel: Uuid, rules: seq<Rule>)
    returns (r: Option<Filter>)
    ensures r == DynamicFilter(parse, config, channel, rules)
  {
    hide Applies, AddKinds, Names;
    if config.mode != ByRules && config.channels.Some? {
      if !Names(parse, config.channels.value, channel) {
        return None;
      }
    }
    match config.mode
    case Mentions => return Some(MentionFilter(config));
    case Everything => return Some(Filter(config.kinds, false));
    case ByRules =>
      var kinds: Option<seq<Kind>> := Some([]);
      var requireMention, hasRule := true, false;
      for i := 0 to |rules|
        invariant Merging(kinds, requireMention, hasRule) == Merged(parse, rules[..i], channel)
      {
        assert rules[..i + 1][..i] == rules[..i];
        if Applies(parse, rules[i], channel) {
          hasRule := true;
          if rules[i].kinds == [] {
            kinds := None;
          } else if kinds.Some? {
            var merged := PushNewKinds(kinds.value, rules[i].kinds);
            kinds := Some(merged);
          }
          if !rules[i].requireMention {
            requireMention := false;
          }
        }
      }
      assert rules[..|rules|] == rules;
      if !hasRule {
        return None;
      }
      return Some(Filter(kinds, requireMention));
  }

  method ResolveChannelFilters(parse: Parser, config: Config, discovered: seq<Uuid>, rules: seq<Rule>)
    returns (result: map<Uuid, Filter>)
    ensures result == BatchFilters(parse, config, discovered, rules)
  {
    hide Applies, AddKinds, Targets;
    result := map[];
    match config.mode
    case Mentions =>
      var targets := TargetChannels(parse, config, discovered);
      for i := 0 to |targets|
        invariant result == map ch | ch in targets[..i] :: MentionFilter(config)
      {
        assert targets[..i + 1] == targets[..i] + [targets[i]];
        result := result[targets[i] := MentionFilter(config)];
      }
      assert targets[..|targets|] == targets;
    case Everything =>
      var targets := TargetChannels(parse, config, discovered);
      for i := 0 to |targets|
        invariant result == map ch | ch in targets[..i] :: Filter(config.kinds, false)
      {
        assert targets[..i + 1] == targets[..i] + [targets[i]];
        result := result[targets[i] := Filter(config.kinds, false)];
      }
      assert targets[..|targets|] == targets;
    case ByRules =>
      for i := 0 to |discovered|
        invariant result == BatchFilters(parse, config, discovered[..i], rules)
      {
        assert discovered[..i + 1] == discovered[..i] + [discovered[i]];
        var ch := discovered[i];
        var kinds: Option<seq<Kind>> := Some([]);
        var requireMention, hasRule := true, false;
        for j := 0 to |rules|
          invariant Merging(kinds, requireMention, hasRule) == Merged(parse, rules[..j], ch)
        {
          assert rules[..j + 1][..j] == rules[..j];
          if Applies(parse, rules[j], ch) {
            hasRule := true;
            if rules[j].kinds == [] {
              kinds := None;
            } else if kinds.Some? {
              var merged := PushNewKinds(kinds.value, rules[j].kinds);
              kinds := Some(merged);
            }
            if !rules[j].requireMention {
              requireMention := false;
            }
          }
        }
        assert rules[..|rules|] == rules;
        if hasRule {
          result := result[ch := Filter(kinds, requireMention)];
        }
      }
      assert discovered[..|discovered|] == discovered;
  }
}
