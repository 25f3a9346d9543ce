/** The route catalogue: registration by pattern, and selection by a sorted first match. */
module RouteAllowlist {
  import opened Basics
  import Text

  /** A registered route, its methods in upper case. `template` is the compiled matcher of a pattern that is not a
      wildcard. */
  datatype Rule = Rule(pattern: string, methods: seq<string>, authRequired: bool, template: string -> bool)

  datatype Answer = Unknown | MethodRefused(rule: Rule) | Permitted(rule: Rule)

  predicate Wildcard(r: Rule) { EndsWith(r.pattern, "/*") }

  function Prefix(r: Rule): string
    requires Wildcard(r)
  {
    r.pattern[..|r.pattern| - 2]
  }

  /** The regular expression `prefix(/.*)?` on a whole line. */
  predicate Under(prefix: string, path: string) {
    path == prefix || (StartsWith(path, prefix + "/") && '\n' !in path[|prefix| + 1..])
  }

  /** `$` also matches just before a final newline. */
  predicate MatchesWildcard(prefix: string, path: string) {
    Under(prefix, path) || (path != "" && path[|path| - 1] == '\n' && Under(prefix, path[..|path| - 1]))
  }

  predicate Matches(r: Rule, path: string) {
    if Wildcard(r) then MatchesWildcard(Prefix(r), path) else r.template(path)
  }

  /** The sort key: exact patterns before wildcards, then the longer pattern first. */
  predicate Precedes(r: Rule, s: Rule) {
    (!Wildcard(r) && Wildcard(s)) || (Wildcard(r) == Wildcard(s) && |r.pattern| > |s.pattern|)
  }

  /** What a wildcard matches: its prefix, or its prefix and a slash and any one line; either may end in a newline. */
  lemma WildcardExactly(prefix: string, path: string)
    ensures MatchesWildcard(prefix, path) <==>
              || path == prefix || path == prefix + "\n"
              || exists rest: string :: '\n' !in rest
                   && (path == prefix + "/" + rest || path == prefix + "/" + rest + "\n")
  {
    var n := |prefix| + 1;
    if Under(prefix, path) && path != prefix {
      assert path == prefix + "/" + path[n..];
    }
    if path != "" && path[|path| - 1] == '\n' {
      var cut := path[..|path| - 1];
      assert path == cut + "\n";
      if Under(prefix, cut) && cut != prefix {
        assert cut == prefix + "/" + cut[n..];
      }
    }
    if rest: string :| '\n' !in rest && (path == prefix + "/" + rest || path == prefix + "/" + rest + "\n") {
      assert (prefix + "/" + rest)[n..] == rest;
      if path == prefix + "/" + rest + "\n" {
        assert path[..|path| - 1] == prefix + "/" + rest;
      }
    }
    if path == prefix + "\n" {
      assert path[..|path| - 1] == prefix;
    }
  }

  // ---------------------------------------------------------------- the stable sort

  /** Position `i` of the catalogue is sorted before position `j`: by key, and by registration among equal keys. */
  predicate Sooner(rules: seq<Rule>, i: int, j: int)
    requires 0 <= i < |rules| && 0 <= j < |rules|
  {
    Precedes(rules[i], rules[j]) || (!Precedes(rules[j], rules[i]) && i < j)
  }

  predicate Indices(rules: seq<Rule>, order: seq<nat>) { forall k | 0 <= k < |order| :: order[k] < |rules| }

  predicate InOrder(rules: seq<Rule>, order: seq<nat>)
    requires Indices(rules, order)
  {
    forall k, l | 0 <= k < l < |order| :: Sooner(rules, order[k], order[l])
  }

  /** Insert a position that is later than all of `order`. */
  function Place(rules: seq<Rule>, order: seq<nat>, n: nat): (r: seq<nat>)
    requires Indices(rules, order) && n < |rules|
    ensures Indices(rules, r) && |r| == |order| + 1
    ensures forall i :: i in r <==> i == n || i in order
  {
    if order == [] then [n]
    else
      var last := order[|order| - 1];
      assert order == order[..|order| - 1] + [last];
      if Precedes(rules[n], rules[last]) then Place(rules, order[..|order| - 1], n) + [last] else order + [n]
  }

  lemma {:induction false} PlaceKeepsOrder(rules: seq<Rule>, order: seq<nat>, n: nat)
    requires Indices(rules, order) && InOrder(rules, order) && n < |rules| && forall k | 0 <= k < |order| ::
            order[k] < n
    ensures InOrder(rules, Place(rules, order, n))
  {
    if order == [] {
    } else {
      var before, last := order[..|order| - 1], order[|order| - 1];
      assert order == before + [last];
      if Precedes(rules[n], rules[last]) {
        PlaceKeepsOrder(rules, before, n);
        var placed := Place(rules, before, n);
        forall k | 0 <= k < |placed|
          ensures Sooner(rules, placed[k], last)
        {
          assert placed[k] in placed;
        }
      } else {
        forall k | 0 <= k < |order|
          ensures Sooner(rules, order[k], n)
        {
          assert k < |order| - 1 ==> Sooner(rules, order[k], last);
        }
      }
    }
  }

  /** `sorted(routes, key=...)`, as positions. */
  function SortedOrder(rules: seq<Rule>, n: nat): (order: seq<nat>)
    requires n <= |rules|
    ensures Indices(rules, order) && |order| == n
    ensures forall i :: i in order <==> 0 <= i < n
  {
    if n == 0 then [] else Place(rules, SortedOrder(rules, n - 1), n - 1)
  }

  lemma {:induction false} SortedOrderInOrder(rules: seq<Rule>, n: nat)
    requires n <= |rules|
    ensures InOrder(rules, SortedOrder(rules, n))
  {
    hide Place, Precedes, Sooner;
    if n > 0 {
      SortedOrderInOrder(rules, n - 1);
      var order := SortedOrder(rules, n - 1);
      assert forall k | 0 <= k < |order| :: order[k] in order;
      PlaceKeepsOrder(rules, order, n - 1);
    }
  }

  // ---------------------------------------------------------------- selection

  /** The rule at `i` matches, and every other match is sorted after it. */
  predicate Chosen(rules: seq<Rule>, path: string, i: int) {
    && 0 <= i < |rules| && Matches(rules[i], path)
    && forall j | 0 <= j < |rules| && j != i && Matches(rules[j], path) :: Sooner(rules, i, j)
  }

  /** The first matching position in sorted order, from place `k` on. */
  function FirstMatch(rules: seq<Rule>, order: seq<nat>, k: nat, path: string): Option<nat>
    requires Indices(rules, order)
    decreases |order| - k
  {
    if k >= |order| then None
    else if Matches(rules[order[k]], path) then Some(order[k])
    else FirstMatch(rules, order, k + 1, path)
  }

  function Select(rules: seq<Rule>, path: string): Option<nat> {
    FirstMatch(rules, SortedOrder(rules, |rules|), 0, path)
  }

  lemma {:induction false} FirstMatchSpec(rules: seq<Rule>, order: seq<nat>, k: nat, path: string)
    requires Indices(rules, order) && InOrder(rules, order)
    ensures var m := FirstMatch(rules, order, k, path);
            match m
            case None => forall l | k <= l < |order| :: !Matches(rules[order[l]], path)
            case Some(i) => i < |rules| && Matches(rules[i], path)
                            && forall l | k <= l < |order| && Matches(rules[order[l]], path) ::
                                 order[l] == i || Sooner(rules, i, order[l])
    decreases |order| - k
  {
    hide Matches, Sooner;
    if k < |order| && !Matches(rules[order[k]], path) {
      FirstMatchSpec(rules, order, k + 1, path);
    }
  }

  lemma {:induction false} SoonerOneWay(rules: seq<Rule>, i: int, j: int)
    requires 0 <= i < |rules| && 0 <= j < |rules| && i != j
    ensures Sooner(rules, i, j) != Sooner(rules, j, i)
  {
  }

  /** Sorting and taking the first match selects the unique best match, if any rule matches at all. */
  lemma {:induction false} SelectsBest(rules: seq<Rule>, path: string)
    ensures Select(rules, path) == None ==> forall j | 0 <= j < |rules| :: !Matches(rules[j], path)
    ensures Select(rules, path).Some? ==> Chosen(rules, path, Select(rules, path).value)
    ensures forall i, j :: Chosen(rules, path, i) && Chosen(rules, path, j) ==> i == j
  {
    var order := SortedOrder(rules, |rules|);
    SortedOrderInOrder(rules, |rules|);
    FirstMatchSpec(rules, order, 0, path);
    hide Matches, SortedOrder, Sooner;
    forall j | 0 <= j < |rules| && Matches(rules[j], path)
      ensures Select(rules, path).Some?
              && (j == Select(rules, path).value || Sooner(rules, Select(rules, path).value, j))
    {
      assert j in order;
      var l :| 0 <= l < |order| && order[l] == j;
    }
    forall i, j | Chosen(rules, path, i) && Chosen(rules, path, j) && i != j
      ensures false
    {
      SoonerOneWay(rules, i, j);
    }
  }

  ghost predicate DistinctPatterns(rules: seq<Rule>) {
    forall i, j | 0 <= i < j < |rules| :: rules[i].pattern != rules[j].pattern
  }

  /** A matching wildcard's prefix is a prefix of the path. */
  lemma WildcardPrefix(prefix: string, path: string)
    requires MatchesWildcard(prefix, path)
    ensures StartsWith(path, prefix)
  {
    if !Under(prefix, path) {
      assert StartsWith(path[..|path| - 1], prefix);
    }
  }

  /** Two matching wildcards of one length are one pattern. */
  lemma SameLengthSamePattern(r: Rule, s: Rule, path: string)
    requires Wildcard(r) && Wildcard(s) && Matches(r, path) && Matches(s, path) && |r.pattern| == |s.pattern|
    ensures r.pattern == s.pattern
  {
    WildcardPrefix(Prefix(r), path);
    WildcardPrefix(Prefix(s), path);
    assert Prefix(r) == path[..|Prefix(r)|] == Prefix(s);
    assert r.pattern == Prefix(r) + "/*" && s.pattern == Prefix(s) + "/*";
  }

  /** When an exact pattern matches, the selected rule is exact and none of the matching exact ones is longer. */
  lemma ExactBeatsWildcard(rules: seq<Rule>, path: string, j: nat)
    requires j < |rules| && Matches(rules[j], path) && !EndsWith(rules[j].pattern, "/*")
    ensures var c := Select(rules, path);
            && c.Some? && c.value < |rules| && Matches(rules[c.value], path)
            && !EndsWith(rules[c.value].pattern, "/*") && |rules[j].pattern| <= |rules[c.value].pattern|
  {
    SelectsBest(rules, path);
    hide Matches;
    var i := Select(rules, path).value;
    assert i != j ==> Sooner(rules, i, j);
  }

  /** When no exact pattern matches, the selected rule is the wildcard with the longest matching prefix:
      every other matching rule has a strictly shorter one, whatever the order of registration. */
  lemma {:induction false} LongestPrefixWins(rules: seq<Rule>, path: string, i: nat, j: nat)
    requires DistinctPatterns(rules) && Select(rules, path) == Some(i) && i < |rules|
    requires forall k | 0 <= k < |rules| && Matches(rules[k], path) :: Wildcard(rules[k])
    requires j < |rules| && j != i && Matches(rules[j], path)
    ensures Wildcard(rules[i]) && |Prefix(rules[j])| < |Prefix(rules[i])|
  {
    SelectsBest(rules, path);
    assert Sooner(rules, i, j);
    hide Matches;
    if |rules[i].pattern| == |rules[j].pattern| {
      SameLengthSamePattern(rules[i], rules[j], path);
    }
  }

  // ---------------------------------------------------------------- the order of registration

  function Reverse<T>(s: seq<T>): (r: seq<T>)
    ensures |r| == |s| && forall k | 0 <= k < |s| :: r[k] == s[|s| - 1 - k]
  {
    seq(|s|, k requires 0 <= k < |s| => s[|s| - 1 - k])
  }

  /** Two exact patterns of equal length match, and no matching rule is better. */
  ghost predicate Tied(rules: seq<Rule>, path: string, i: int, j: int) {
    && 0 <= i < j < |rules| && Matches(rules[i], path) && Matches(rules[j], path)
    && !Wildcard(rules[i]) && !Wildcard(rules[j]) && |rules[i].pattern| == |rules[j].pattern|
    && forall k | 0 <= k < |rules| && Matches(rules[k], path) :: !Precedes(rules[k], rules[i])
  }

  /** The same rules in another order. */
  ghost predicate SameRules(rules: seq<Rule>, others: seq<Rule>) {
    (forall r | r in rules :: r in others) && (forall r | r in others :: r in rules)
  }

  /** The rule selected, if any. */
  function Selected(rules: seq<Rule>, path: string): Option<Rule> {
    match Select(rules, path)
    case None => None
    case Some(i) => if i < |rules| then Some(rules[i]) else None
  }

  lemma {:induction false} DependenceMeansTie(rules: seq<Rule>, others: seq<Rule>, path: string)
    returns (i: int, j: int)
    requires DistinctPatterns(rules) && SameRules(rules, others)
    requires Selected(rules, path) != Selected(others, path)
    ensures Tied(rules, path, i, j)
  {
    SelectsBest(rules, path);
    SelectsBest(others, path);
    hide Matches;
    var c, d := Select(rules, path), Select(others, path);
    assert c.Some? ==> rules[c.value] in others;
    assert d.Some? ==> others[d.value] in rules;
    var c' :| 0 <= c' < |others| && others[c'] == rules[c.value];
    var d' :| 0 <= d' < |rules| && rules[d'] == others[d.value];
    assert Sooner(rules, c.value, d') && Sooner(others, d.value, c');
    if Wildcard(rules[c.value]) {
      SameLengthSamePattern(rules[c.value], rules[d'], path);
    }
    i, j := Min(c.value, d'), Max(c.value, d');
    forall k | 0 <= k < |rules| && Matches(rules[k], path)
      ensures !Precedes(rules[k], rules[i])
    {
      assert k != c.value ==> Sooner(rules, c.value, k);
    }
  }

  /** Among tied rules the earliest registered wins. */
  lemma {:induction false} TieGoesToEarliest(rules: seq<Rule>, path: string, i: int)
    requires 0 <= i < |rules| && Matches(rules[i], path)
    requires forall k | 0 <= k < |rules| && Matches(rules[k], path) :: !Precedes(rules[k], rules[i])
    ensures Select(rules, path).Some? && Chosen(rules, path, Select(rules, path).value)
            && Select(rules, path).value <= i
  {
    SelectsBest(rules, path);
    hide Matches, Precedes;
    assert Select(rules, path).value != i ==> Sooner(rules, Select(rules, path).value, i);
  }

  lemma {:induction false} TieIsBestTwice(rules: seq<Rule>, path: string, i: int, j: int)
    requires Tied(rules, path, i, j)
    ensures var back := Reverse(rules);
            && back[|rules| - 1 - j] == rules[j]
            && forall k | 0 <= k < |back| && Matches(back[k], path) :: !Precedes(back[k], back[|rules| - 1 - j])
  {
    var back := Reverse(rules);
    hide Matches;
    forall k | 0 <= k < |back| && Matches(back[k], path)
      ensures !Precedes(back[k], rules[j])
    {
      assert back[k] == rules[|rules| - 1 - k];
      assert !Precedes(rules[|rules| - 1 - k], rules[i]);
    }
  }

  lemma {:induction false} TieMeansDependence(rules: seq<Rule>, path: string, i: int, j: int)
    requires DistinctPatterns(rules) && Tied(rules, path, i, j)
    ensures Selected(rules, path) != Selected(Reverse(rules), path)
  {
    hide Matches, Precedes, Wildcard, Select;
    var back, n := Reverse(rules), |rules|;
    TieIsBestTwice(rules, path, i, j);
    TieGoesToEarliest(rules, path, i);
    TieGoesToEarliest(back, path, n - 1 - j);
    var c, b := Select(rules, path).value, Select(back, path).value;
    assert back[b] == rules[n - 1 - b] && c < n - 1 - b;
    assert rules[c].pattern != rules[n - 1 - b].pattern;
  }

  /** Which rule is selected depends on the order of registration exactly when two exact patterns
      of equal length match and nothing better does. */
  lemma {:induction false} OrderMattersExactly(rules: seq<Rule>, path: string)
    requires DistinctPatterns(rules)
    ensures (exists others :: SameRules(rules, others) && Selected(rules, path) != Selected(others, path))
            <==> exists i, j :: Tied(rules, path, i, j)
  {
    if others :| SameRules(rules, others) && Selected(rules, path) != Selected(others, path) {
      var i, j := DependenceMeansTie(rules, others, path);
    }
    if i, j :| Tied(rules, path, i, j) {
      TieMeansDependence(rules, path, i, j);
      var back := Reverse(rules);
      assert forall k | 0 <= k < |rules| :: rules[k] == back[|rules| - 1 - k];
      assert SameRules(rules, back);
    }
  }

  /** What a pattern with one placeholder compiles to: something without a slash between its two fixed parts. */
  predicate OneSegment(before: string, after: string, path: string) {
    && |before| + |after| < |path| && StartsWith(path, before) && EndsWith(path, after)
    && '/' !in path[|before|..|path| - |after|]
  }

  /** Such a tie exists: a placeholder at the end of one pattern and at the start of the other. */
  lemma TieIsReachable()
    ensures var r := Rule("/a/{x}", ["GET"], true, path => OneSegment("/a/", "", path));
            var s := Rule("/{y}/b", ["GET"], false, path => OneSegment("/", "/b", path));
            && DistinctPatterns([r, s]) && Tied([r, s], "/a/b", 0, 1)
            && Selected([r, s], "/a/b") != Selected(Reverse([r, s]), "/a/b")
  {
    var r := Rule("/a/{x}", ["GET"], true, path => OneSegment("/a/", "", path));
    var s := Rule("/{y}/b", ["GET"], false, path => OneSegment("/", "/b", path));
    assert r.pattern[1] == 'a' && s.pattern[1] == '{';
    assert !Wildcard(r) && !Wildcard(s) by {
      assert r.pattern[5] == '}' && s.pattern[5] == 'b' && "/*"[1] == '*';
    }
    assert OneSegment("/a/", "", "/a/b") && OneSegment("/", "/b", "/a/b") by {
      assert "/a/b"[3..4] == "b" && "/a/b"[1..2] == "a";
    }
    TieMeansDependence([r, s], "/a/b", 0, 1);
  }

  // ---------------------------------------------------------------- the catalogue object

  /** The rules with another pattern, in order. */
  function Without(rules: seq<Rule>, pattern: string): seq<Rule> {
    if rules == [] then []
    else
      var last := rules[|rules| - 1];
      Without(rules[..|rules| - 1], pattern) + if last.pattern != pattern then [last] else []
  }

  lemma {:induction false} WithoutKeepsDistinct(rules: seq<Rule>, pattern: string)
    requires DistinctPatterns(rules)
    ensures DistinctPatterns(Without(rules, pattern))
    ensures forall r | r in Without(rules, pattern) :: r in rules && r.pattern != pattern
    ensures forall r | r in rules && r.pattern != pattern :: r in Without(rules, pattern)
  {
    if rules == [] {
    } else {
      var before, last := rules[..|rules| - 1], rules[|rules| - 1];
      WithoutKeepsDistinct(before, pattern);
      assert rules == before + [last];
      assert forall k | 0 <= k < |before| :: before[k].pattern != last.pattern;
    }
  }

  class RouteAllowlist {
    var routes: seq<Rule>

    constructor (routes: seq<Rule>)
      requires DistinctPatterns(routes)
      ensures this.routes == routes && Valid()
    {
      this.routes := routes;
    }

    ghost predicate Valid()
      reads this
    {
      DistinctPatterns(routes)
    }

    /** Registering a route replaces the one with its pattern, if any, keeps the others and puts the new one last. */
    method AddRoute(rule: Rule)
      requires Valid()
      modifies this
      ensures Valid() && routes == Without(old(routes), rule.pattern) + [rule]
    {
      WithoutKeepsDistinct(routes, rule.pattern);
      var kept := [];
      for i := 0 to |routes|
        invariant routes == old(routes) && kept == Without(routes[..i], rule.pattern)
      {
        assert routes[..i + 1][..i] == routes[..i];
        if routes[i].pattern != rule.pattern {
          kept := kept + [routes[i]];
        }
      }
      assert routes[..|routes|] == routes;
      routes := kept + [rule];
    }

    method ValidateRoute(path: string, verb: string) returns (answer: Answer)
      ensures answer == match Selected(routes, path)
                        case None => Unknown
                        case Some(rule) => if Text.Upper(verb) in rule.methods then Permitted(rule)
                            else MethodRefused(rule)
    {
      var upper := Text.Upper(verb);
      var order := [];
      for n := 0 to |routes|
        invariant order == SortedOrder(routes, n)
      {
        order := Place(routes, order, n);
      }
      for k := 0 to |order|
        invariant Select(routes, path) == FirstMatch(routes, order, k, path)
      {
        var rule := routes[order[k]];
        if Matches(rule, path) {
          return if upper in rule.methods then Permitted(rule) else MethodRefused(rule);
        }
      }
      answer := Unknown;
    }
  }
}
