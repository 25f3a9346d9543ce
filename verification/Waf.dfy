/** Content inspection: normalised variants of a text, scanned with early exits against five families of patterns.
    Decoding, unescaping, lower-casing and the regular expressions are parameters. */
module Waf {
  import opened Basics
  import opened JsonValues
  import Text

  datatype Detectors = Detectors(
    lower: string -> string,
    unquote: string -> string,
    unescape: string -> string,
    sqlLiterals: seq<string>,
    sqlPatterns: seq<string -> bool>,
    xssLiterals: seq<string>,
    xssPatterns: seq<string -> bool>,
    traversalPatterns: seq<string -> bool>)

  // ---------------------------------------------------------------- the exhaustive reading

  predicate AnyLiteral(subs: seq<string>, s: string) { exists i | 0 <= i < |subs| :: Text.Contains(s, subs[i]) }

  predicate AnyPattern(patterns: seq<string -> bool>, s: string) { exists i | 0 <= i < |patterns| :: patterns[i](s) }

  datatype Family = SqlLiteral | SqlPattern | XssLiteral | XssPattern | Traversal

  function Severity(f: Family): int {
    match f case SqlLiteral => 95 case SqlPattern => 90 case XssLiteral => 90 case XssPattern => 85 case Traversal => 95
  }

  predicate Hits(d: Detectors, f: Family, variant: string) {
    match f
    case SqlLiteral => AnyLiteral(d.sqlLiterals, d.lower(variant))
    case SqlPattern => AnyPattern(d.sqlPatterns, variant)
    case XssLiteral => AnyLiteral(d.xssLiterals, d.lower(variant))
    case XssPattern => AnyPattern(d.xssPatterns, variant)
    case Traversal => AnyPattern(d.traversalPatterns, variant)
  }

  predicate HitsSome(d: Detectors, f: Family, variants: seq<string>) {
    exists i | 0 <= i < |variants| :: Hits(d, f, variants[i])
  }

  /** The most severe family that any pattern of it finds in any variant; zero if none does. */
  function WorstFinding(d: Detectors, variants: seq<string>): int {
    if HitsSome(d, SqlLiteral, variants) || HitsSome(d, Traversal, variants) then 95
    else if HitsSome(d, SqlPattern, variants) || HitsSome(d, XssLiteral, variants) then 90
    else if HitsSome(d, XssPattern, variants) then 85
    else 0
  }

  lemma {:induction false} Witness(d: Detectors, f: Family, variants: seq<string>) returns (i: nat)
    requires HitsSome(d, f, variants)
    ensures i < |variants| && Hits(d, f, variants[i])
  {
    hide Hits;
    i :| 0 <= i < |variants| && Hits(d, f, variants[i]);
  }

  /** It is the maximum over every family and every variant. */
  lemma {:induction false} WorstIsMaximum(d: Detectors, variants: seq<string>)
    ensures forall f: Family, i | 0 <= i < |variants| && Hits(d, f, variants[i]) ::
            Severity(f) <= WorstFinding(d, variants)
    ensures WorstFinding(d, variants) != 0 ==>
              exists f: Family, i | 0 <= i < |variants| ::
                Hits(d, f, variants[i]) && Severity(f) == WorstFinding(d, variants)
  {
    forall f: Family, i | 0 <= i < |variants| && Hits(d, f, variants[i])
      ensures Severity(f) <= WorstFinding(d, variants)
    {
      assert HitsSome(d, f, variants);
    }
    if WorstFinding(d, variants) != 0 {
      var f :| HitsSome(d, f, variants) && Severity(f) == WorstFinding(d, variants);
      var i := Witness(d, f, variants);
    }
  }

  /** Some variant, in lower case, contains some of the literals. */
  ghost predicate FindsLiteral(d: Detectors, subs: seq<string>, variants: seq<string>) {
    exists i, k | 0 <= i < |variants| && 0 <= k < |subs| :: Text.Contains(d.lower(variants[i]), subs[k])
  }

  /** Some variant, as it is, matches some of the patterns. */
  ghost predicate FindsPattern(patterns: seq<string -> bool>, variants: seq<string>) {
    exists i, k | 0 <= i < |variants| && 0 <= k < |patterns| :: patterns[k](variants[i])
  }

  /** What each score means in terms of the five lists: 95 for an injection literal or a traversal pattern, else 90
      for an injection pattern or a script literal, else 85 for a script pattern, else 0. */
  lemma ScoreByDetectors(d: Detectors, variants: seq<string>)
    ensures var sql, trav := FindsLiteral(d, d.sqlLiterals, variants), FindsPattern(d.traversalPatterns, variants);
            var sqlp, xss := FindsPattern(d.sqlPatterns, variants), FindsLiteral(d, d.xssLiterals, variants);
            var xssp := FindsPattern(d.xssPatterns, variants);
            WorstFinding(d, variants) == if sql || trav then 95 else if sqlp || xss then 90 else if xssp then 85 else 0
  {
    LiteralFamily(d, SqlLiteral, d.sqlLiterals, variants);
    LiteralFamily(d, XssLiteral, d.xssLiterals, variants);
    PatternFamily(d, SqlPattern, d.sqlPatterns, variants);
    PatternFamily(d, XssPattern, d.xssPatterns, variants);
    PatternFamily(d, Traversal, d.traversalPatterns, variants);
    hide HitsSome, FindsLiteral, FindsPattern;
  }

  lemma LiteralFamily(d: Detectors, f: Family, subs: seq<string>, variants: seq<string>)
    requires (f == SqlLiteral && subs == d.sqlLiterals) || (f == XssLiteral && subs == d.xssLiterals)
    ensures HitsSome(d, f, variants) <==> FindsLiteral(d, subs, variants)
  {
    hide Text.Contains;
    if HitsSome(d, f, variants) {
      var i :| 0 <= i < |variants| && Hits(d, f, variants[i]);
      var k :| 0 <= k < |subs| && Text.Contains(d.lower(variants[i]), subs[k]);
    }
    if FindsLiteral(d, subs, variants) {
      var i, k :| 0 <= i < |variants| && 0 <= k < |subs| && Text.Contains(d.lower(variants[i]), subs[k]);
      assert AnyLiteral(subs, d.lower(variants[i]));
      assert Hits(d, f, variants[i]);
    }
  }

  lemma PatternFamily(d: Detectors, f: Family, patterns: seq<string -> bool>, variants: seq<string>)
    requires (f == SqlPattern && patterns == d.sqlPatterns) || (f == XssPattern && patterns == d.xssPatterns)
             || (f == Traversal && patterns == d.traversalPatterns)
    ensures HitsSome(d, f, variants) <==> FindsPattern(patterns, variants)
  {
    if HitsSome(d, f, variants) {
      var i :| 0 <= i < |variants| && Hits(d, f, variants[i]);
      var k :| 0 <= k < |patterns| && patterns[k](variants[i]);
    }
    if FindsPattern(patterns, variants) {
      var i, k :| 0 <= i < |variants| && 0 <= k < |patterns| && patterns[k](variants[i]);
      assert AnyPattern(patterns, variants[i]);
      assert Hits(d, f, variants[i]);
    }
  }

  // ---------------------------------------------------------------- variants

  /** The text and its first two percent-decodings, as far as each changes something. */
  function Decodings(d: Detectors, content: string): seq<string> {
    var once := d.unquote(content);
    if once == content then [content]
    else
      var twice := d.unquote(once);
      if twice == once then [content, once] else [content, once, twice]
  }

  /** One turn of the unescaping loop. */
  function Unescaped(d: Detectors, variants: seq<string>, text: string): seq<string> {
    var u := d.unescape(text);
    if u in variants then variants
    else
      var v := d.unquote(u);
      if v in variants + [u] then variants + [u] else variants + [u, v]
  }

  function UnescapedAll(d: Detectors, variants: seq<string>, texts: seq<string>): seq<string> {
    if texts == [] then variants
    else Unescaped(d, UnescapedAll(d, variants, texts[..|texts| - 1]), texts[|texts| - 1])
  }

  function Variants(d: Detectors, content: string): seq<string> {
    UnescapedAll(d, Decodings(d, content), Decodings(d, content))
  }

  /** What one turn adds. */
  lemma {:induction false} UnescapedStep(d: Detectors, variants: seq<string>, text: string)
    ensures var more := Unescaped(d, variants, text);
            && variants <= more && |more| <= |variants| + 2 && d.unescape(text) in more
            && forall v | v in more :: v in variants || v == d.unescape(text) || v == d.unquote(d.unescape(text))
  {
  }

  /** Some text of the list unescapes to `v`, or to something that decodes to it. */
  ghost predicate ComesFrom(d: Detectors, texts: seq<string>, v: string) {
    exists t | t in texts :: v == d.unescape(t) || v == d.unquote(d.unescape(t))
  }

  lemma {:induction false} UnescapedCovers(d: Detectors, variants: seq<string>, texts: seq<string>)
    ensures var all := UnescapedAll(d, variants, texts);
            && variants <= all && |all| <= |variants| + 2 * |texts|
            && (forall t | t in texts :: d.unescape(t) in all)
            && (forall v | v in all :: v in variants || ComesFrom(d, texts, v))
  {
    if texts == [] {
    } else {
      var before, last := texts[..|texts| - 1], texts[|texts| - 1];
      UnescapedCovers(d, variants, before);
      UnescapedStep(d, UnescapedAll(d, variants, before), last);
      hide Unescaped;
      assert texts == before + [last];
      forall v | ComesFrom(d, before, v)
        ensures ComesFrom(d, texts, v)
      {
        var t :| t in before && (v == d.unescape(t) || v == d.unquote(d.unescape(t)));
        assert t in texts;
      }
      assert last in texts;
    }
  }

  /** The variants include the text, its first and second decodings and the unescaping of each; they are at most
      nine. */
  lemma VariantsCover(d: Detectors, content: string)
    ensures var vs := Variants(d, content);
            var once := d.unquote(content);
            var twice := d.unquote(once);
            && content in vs && once in vs && twice in vs
            && d.unescape(content) in vs && d.unescape(once) in vs && d.unescape(twice) in vs
            && |vs| <= 9
  {
    UnescapedCovers(d, Decodings(d, content), Decodings(d, content));
    hide UnescapedAll;
    var base := Decodings(d, content);
    assert content == base[0];
    assert d.unquote(content) == content || d.unquote(content) == base[1];
    var twice := d.unquote(d.unquote(content));
    assert twice in base by {
      if twice != d.unquote(content) {
        assert twice == base[2];
      }
    }
  }

  /** What unescaping reveals is decoded once more: for every text but those whose unescaping was a variant already. */
  lemma {:induction false} RevealedIsDecoded(d: Detectors, variants: seq<string>, texts: seq<string>, i: nat)
    requires i < |texts|
    ensures var u := d.unescape(texts[i]);
            u in UnescapedAll(d, variants, texts[..i]) || d.unquote(u) in UnescapedAll(d, variants, texts)
    decreases |texts|
  {
    var before, last := texts[..|texts| - 1], texts[|texts| - 1];
    UnescapedStep(d, UnescapedAll(d, variants, before), last);
    if i < |before| {
      RevealedIsDecoded(d, variants, before, i);
      assert before[..i] == texts[..i];
    }
  }

  /** In particular the unescaping of the text itself is decoded, unless it is one of its decodings. */
  lemma UnescapingIsDecoded(d: Detectors, content: string)
    ensures var once := d.unquote(content); var u := d.unescape(content);
            u in {content, once, d.unquote(once)} || d.unquote(u) in Variants(d, content)
  {
    var base := Decodings(d, content);
    RevealedIsDecoded(d, base, base, 0);
    hide Unescaped;
    assert base[..0] == [];
    assert forall t | t in base :: t in {content, d.unquote(content), d.unquote(d.unquote(content))};
  }

  /** Nothing else is a variant: each is the text or one of its first two decodings, the unescaping of one of these,
      or the decoding of such an unescaping. */
  lemma VariantsOnly(d: Detectors, content: string, v: string)
    requires v in Variants(d, content)
    ensures var once := d.unquote(content);
            exists t | t in {content, once, d.unquote(once)} ::
              v == t || v == d.unescape(t) || v == d.unquote(d.unescape(t))
  {
    var base := Decodings(d, content);
    UnescapedCovers(d, base, base);
    hide UnescapedAll;
    assert v in base || ComesFrom(d, base, v);
    assert forall t | t in base :: t in {content, d.unquote(content), d.unquote(d.unquote(content))};
  }

  // ---------------------------------------------------------------- the scan

  /** What inspecting a text amounts to, without looking into embedded JSON. */
  function TextThreat(d: Detectors, content: string): int {
    if content == "" then 0 else WorstFinding(d, Variants(d, content))
  }

  /** A find: the family and the position of the literal or pattern in its list. */
  type Find = (Family, nat)

  /** Try the literals or patterns of one family on one variant, in order, up to the first find. */
  method Search(d: Detectors, f: Family, variant: string) returns (found: Option<nat>)
    ensures found.Some? <==> Hits(d, f, variant)
  {
    found := None;
    if f == SqlLiteral || f == XssLiteral {
      var subs, text := if f == SqlLiteral then d.sqlLiterals else d.xssLiterals, d.lower(variant);
      for i := 0 to |subs|
        invariant forall k | 0 <= k < i :: !Text.Contains(text, subs[k])
      {
        if Text.Contains(text, subs[i]) {
          assert AnyLiteral(subs, text);
          return Some(i);
        }
      }
    } else {
      var patterns := if f == SqlPattern then d.sqlPatterns else if f == XssPattern then d.xssPatterns
          else d.traversalPatterns;
      for i := 0 to |patterns|
        invariant forall k | 0 <= k < i :: !patterns[k](variant)
      {
        if patterns[i](variant) {
          assert AnyPattern(patterns, variant);
          return Some(i);
        }
      }
    }
  }

  /** One pass over the variants for one family. It stops once the score, raised here or high already, reaches the
      severity. */
  method Scan(d: Detectors, f: Family, variants: seq<string>, score: int, reasons: seq<Find>)
    returns (score': int, reasons': seq<Find>)
    ensures score < Severity(f) ==> score' == if HitsSome(d, f, variants) then Severity(f) else score
    ensures score >= Severity(f) ==> score' == score
    ensures reasons <= reasons' && (score' > score ==> reasons' != [])
    ensures reasons' != reasons ==> HitsSome(d, f, variants)
  {
    score', reasons' := score, reasons;
    for i := 0 to |variants|
      invariant score' == score && reasons' == reasons && (0 < i ==> score < Severity(f))
      invariant forall k | 0 <= k < i :: !Hits(d, f, variants[k])
    {
      var found := Search(d, f, variants[i]);
      if found.Some? {
        reasons' := reasons' + [(f, found.value)];
        score' := Max(score', Severity(f));
        assert HitsSome(d, f, variants);
      }
      if score' >= Severity(f) {
        break;
      }
    }
  }

  method BuildVariants(d: Detectors, content: string) returns (variants: seq<string>)
    ensures variants == Variants(d, content)
  {
    variants := [content];
    var decoded := d.unquote(content);
    if decoded != content {
      variants := variants + [decoded];
      var doubleDecoded := d.unquote(decoded);
      if doubleDecoded != decoded {
        variants := variants + [doubleDecoded];
      }
    }
    ghost var base := Decodings(d, content);
    assert variants == base;
    var texts := variants;
    for i := 0 to |texts|
      invariant variants == UnescapedAll(d, base, texts[..i])
    {
      assert texts[..i + 1][..i] == texts[..i];
      var unescaped := d.unescape(texts[i]);
      if unescaped !in variants {
        variants := variants + [unescaped];
        var decodedAgain := d.unquote(unescaped);
        if decodedAgain !in variants {
          variants := variants + [decodedAgain];
        }
      }
    }
    assert texts[..|texts|] == texts;
  }

  /** `inspect_content` without the look into embedded JSON: with all its early exits, the score is that of the
      exhaustive reading, and the text is flagged exactly when the score is positive. */
  method InspectText(d: Detectors, content: string) returns (attack: bool, reasons: seq<Find>, score: int)
    ensures score == TextThreat(d, content) && attack == (score > 0) && attack == (reasons != [])
  {
    if content == "" {
      return false, [], 0;
    }
    var variants := BuildVariants(d, content);
    score, reasons := Scan(d, SqlLiteral, variants, 0, []);
    if score < 90 {
      score, reasons := Scan(d, SqlPattern, variants, score, reasons);
    }
    score, reasons := Scan(d, XssLiteral, variants, score, reasons);
    if score < 85 {
      score, reasons := Scan(d, XssPattern, variants, score, reasons);
    }
    score, reasons := Scan(d, Traversal, variants, score, reasons);
    attack := |reasons| > 0;
    score := Min(100, score);
  }

  // ---------------------------------------------------------------- payload trees

  /** Every key and every string leaf of a value, in the order of traversal. */
  function Texts(j: Json): seq<string>
    decreases j, 1
  {
    match j
    case Str(text) => [text]
    case Arr(items) => ItemTexts(items)
    case Obj(fields) => FieldTexts(fields)
    case _ => []
  }

  function ItemTexts(items: seq<Json>): seq<string>
    decreases items, 0
  {
    if items == [] then [] else Texts(items[0]) + ItemTexts(items[1..])
  }

  function FieldTexts(fields: seq<Field>): seq<string>
    decreases fields, 0
  {
    if fields == [] then [] else [fields[0].key] + Texts(fields[0].value) + FieldTexts(fields[1..])
  }

  // ---------------------------------------------------------------- payload trees, by position

  /** One step into a value: an item of an array, the value of a field, or the name of a field. */
  datatype Hop = Item(i: nat) | Value(i: nat) | Name(i: nat)

  /** Following the path from the value ends at this text, a string or the name of a field. */
  predicate LeadsTo(j: Json, path: seq<Hop>, text: string)
    decreases |path|
  {
    if path == [] then j == Str(text)
    else match path[0]
      case Item(i) => j.Arr? && i < |j.items| && LeadsTo(j.items[i], path[1..], text)
      case Value(i) => j.Obj? && i < |j.fields| && LeadsTo(j.fields[i].value, path[1..], text)
      case Name(i) => j.Obj? && i < |j.fields| && |path| == 1 && j.fields[i].key == text
  }

  ghost predicate Holds(j: Json, text: string) { exists path :: LeadsTo(j, path, text) }

  /** The traversal meets a text exactly if some path leads to it. */
  lemma {:induction false} TextsExactly(j: Json, text: string)
    ensures text in Texts(j) <==> Holds(j, text)
    decreases j, 1
  {
    match j
    case Str(s) =>
      if text == s {
        assert LeadsTo(j, [], text);
      }
      if path: seq<Hop> :| LeadsTo(j, path, text) {
        assert path == [];
      }
    case Arr(items) =>
      ItemsExactly(items, text);
      if i: nat :| i < |items| && Holds(items[i], text) {
        var path :| LeadsTo(items[i], path, text);
        assert ([Item(i)] + path)[1..] == path;
        assert LeadsTo(j, [Item(i)] + path, text);
      }
      if path: seq<Hop> :| LeadsTo(j, path, text) {
        assert path != [] && path[0].Item?;
        assert LeadsTo(items[path[0].i], path[1..], text);
      }
    case Obj(fields) =>
      FieldsExactly(fields, text);
      if i: nat :| i < |fields| && (fields[i].key == text || Holds(fields[i].value, text)) {
        if fields[i].key == text {
          assert LeadsTo(j, [Name(i)], text);
        } else {
          var path :| LeadsTo(fields[i].value, path, text);
          assert ([Value(i)] + path)[1..] == path;
          assert LeadsTo(j, [Value(i)] + path, text);
        }
      }
      if path: seq<Hop> :| LeadsTo(j, path, text) {
        assert path != [] && !path[0].Item?;
        if path[0].Value? {
          assert LeadsTo(fields[path[0].i].value, path[1..], text);
        }
      }
    case _ =>
      assert forall path: seq<Hop> :: !LeadsTo(j, path, text);
  }

  lemma {:induction false} ItemsExactly(items: seq<Json>, text: string)
    ensures text in ItemTexts(items) <==> exists i | 0 <= i < |items| :: Holds(items[i], text)
    decreases items, 0
  {
    hide Holds;
    if items == [] {
    } else {
      TextsExactly(items[0], text);
      ItemsExactly(items[1..], text);
      assert forall i | 0 < i < |items| :: items[i] == items[1..][i - 1];
    }
  }

  lemma {:induction false} FieldsExactly(fields: seq<Field>, text: string)
    ensures text in FieldTexts(fields) <==>
              exists i | 0 <= i < |fields| :: fields[i].key == text || Holds(fields[i].value, text)
    decreases fields, 0
  {
    hide Holds;
    if fields == [] {
    } else {
      TextsExactly(fields[0].value, text);
      FieldsExactly(fields[1..], text);
      assert forall i | 0 < i < |fields| :: fields[i] == fields[1..][i - 1];
    }
  }

  /** A score is that of a value: no key or string anywhere in it threatens more, and unless it is zero one threatens as
      much. */
  ghost predicate ScoreOf(d: Detectors, j: Json, score: int) {
    && 0 <= score <= 95
    && (forall path, text | LeadsTo(j, path, text) :: TextThreat(d, text) <= score)
    && (score > 0 ==> exists path, text :: LeadsTo(j, path, text) && TextThreat(d, text) == score)
  }

  lemma MaxThreatIsScore(d: Detectors, j: Json)
    ensures ScoreOf(d, j, MaxThreat(d, Texts(j)))
  {
    var texts := Texts(j);
    MaxThreatBounds(d, texts);
    hide TextThreat, MaxThreat, Texts;
    forall path, text | LeadsTo(j, path, text)
      ensures TextThreat(d, text) <= MaxThreat(d, texts)
    {
      TextsExactly(j, text);
      var i :| 0 <= i < |texts| && texts[i] == text;
    }
    if MaxThreat(d, texts) > 0 {
      var i :| 0 <= i < |texts| && TextThreat(d, texts[i]) == MaxThreat(d, texts);
      TextsExactly(j, texts[i]);
      var path :| LeadsTo(j, path, texts[i]);
    }
  }

  /** The largest threat among some texts. */
  function MaxThreat(d: Detectors, texts: seq<string>): int {
    if texts == [] then 0 else Max(TextThreat(d, texts[0]), MaxThreat(d, texts[1..]))
  }

  lemma {:induction false} MaxThreatConcat(d: Detectors, a: seq<string>, b: seq<string>)
    ensures MaxThreat(d, a + b) == Max(MaxThreat(d, a), MaxThreat(d, b))
    ensures 0 <= MaxThreat(d, b)
  {
    hide TextThreat;
    if a == [] {
      assert a + b == b;
      MaxThreatBounds(d, b);
    } else {
      MaxThreatConcat(d, a[1..], b);
      assert (a + b)[1..] == a[1..] + b;
    }
  }

  /** The maximum bounds every text, is attained, and lies between 0 and 95. */
  lemma {:induction false} MaxThreatBounds(d: Detectors, texts: seq<string>)
    ensures 0 <= MaxThreat(d, texts) <= 95
    ensures forall i | 0 <= i < |texts| :: TextThreat(d, texts[i]) <= MaxThreat(d, texts)
    ensures MaxThreat(d, texts) > 0 ==> exists i | 0 <= i < |texts| :: TextThreat(d, texts[i]) == MaxThreat(d, texts)
  {
    hide WorstFinding;
    if texts == [] {
    } else {
      MaxThreatBounds(d, texts[1..]);
      ThreatRange(d, texts[0]);
      if MaxThreat(d, texts) > TextThreat(d, texts[0]) {
        var i :| 0 <= i < |texts| - 1 && TextThreat(d, texts[1..][i]) == MaxThreat(d, texts[1..]);
        assert texts[i + 1] == texts[1..][i];
      }
    }
  }

  lemma ThreatRange(d: Detectors, text: string)
    ensures 0 <= TextThreat(d, text) <= 95
  {
  }

  /** What inspecting a text amounts to; `parsed` is what it parses to when it looks like JSON and parses. */
  function ContentThreat(d: Detectors, content: string, parsed: Option<Json>): int {
    if content == "" then 0
    else Max(TextThreat(d, content), if parsed.Some? then MaxThreat(d, Texts(parsed.value)) else 0)
  }

  /** No family finds anything in any variant of the text. */
  ghost predicate Harmless(d: Detectors, text: string) {
    text == "" || forall f: Family, i | 0 <= i < |Variants(d, text)| :: !Hits(d, f, Variants(d, text)[i])
  }

  /** A text poses no threat exactly when nothing is found in it, and some texts together exactly when none of them
      does. */
  lemma NoThreatExactly(d: Detectors, text: string)
    ensures TextThreat(d, text) == 0 <==> Harmless(d, text)
  {
    hide Variants, Hits, WorstFinding;
    var vs := Variants(d, text);
    WorstIsMaximum(d, vs);
    if text != "" && TextThreat(d, text) != 0 {
      var f: Family, i :| 0 <= i < |vs| && Hits(d, f, vs[i]) && Severity(f) == WorstFinding(d, vs);
      assert Hits(d, f, Variants(d, text)[i]);
    }
    if text != "" && !Harmless(d, text) {
      var f: Family, i :| 0 <= i < |vs| && Hits(d, f, vs[i]);
      assert 0 < Severity(f) <= WorstFinding(d, vs);
    }
  }

  lemma {:induction false} NoneThreatens(d: Detectors, texts: seq<string>)
    ensures MaxThreat(d, texts) <= 0 <==> forall i | 0 <= i < |texts| :: Harmless(d, texts[i])
  {
    MaxThreatBounds(d, texts);
    hide MaxThreat, TextThreat, Harmless;
    forall i | 0 <= i < |texts|
      ensures TextThreat(d, texts[i]) == 0 <==> Harmless(d, texts[i])
      ensures 0 <= TextThreat(d, texts[i])
    {
      NoThreatExactly(d, texts[i]);
      ThreatRange(d, texts[i]);
    }
  }

  /** The accumulator a traversal carries. */
  datatype Acc = Acc(threat: int, reasons: seq<Find>)

  method Note(d: Detectors, text: string, acc: Acc) returns (acc': Acc)
    requires (acc.threat > 0) == (acc.reasons != []) && 0 <= acc.threat
    ensures acc'.threat == Max(acc.threat, TextThreat(d, text)) && (acc'.threat > 0) == (acc'.reasons != [])
  {
    var attack, reasons, score := InspectText(d, text);
    ThreatRange(d, text);
    acc' := if attack then Acc(Max(acc.threat, score), acc.reasons + reasons) else acc;
  }

  /** One more item, or one more field, of what is left to traverse. */
  lemma {:induction false} ItemStep(d: Detectors, items: seq<Json>, i: nat)
    requires i < |items|
    ensures MaxThreat(d, ItemTexts(items[i..]))
            == Max(MaxThreat(d, Texts(items[i])), MaxThreat(d, ItemTexts(items[i + 1..])))
  {
    hide MaxThreat;
    MaxThreatConcat(d, Texts(items[i]), ItemTexts(items[i + 1..]));
    assert items[i..][1..] == items[i + 1..];
  }

  lemma {:induction false} FieldStep(d: Detectors, fields: seq<Field>, i: nat)
    requires i < |fields|
    ensures MaxThreat(d, FieldTexts(fields[i..]))
            == Max(Max(TextThreat(d, fields[i].key), MaxThreat(d, Texts(fields[i].value))),
                   MaxThreat(d, FieldTexts(fields[i + 1..])))
  {
    OneText(d, fields[i].key);
    hide MaxThreat, TextThreat;
    MaxThreatConcat(d, [fields[i].key] + Texts(fields[i].value), FieldTexts(fields[i + 1..]));
    MaxThreatConcat(d, [fields[i].key], Texts(fields[i].value));
    assert fields[i..][1..] == fields[i + 1..];
  }

  lemma OneText(d: Detectors, text: string)
    ensures MaxThreat(d, [text]) == TextThreat(d, text) && MaxThreat(d, []) == 0
  {
    ThreatRange(d, text);
    assert [text][1..] == [];
  }

  method Traverse(d: Detectors, j: Json, acc: Acc) returns (acc': Acc)
    requires (acc.threat > 0) == (acc.reasons != []) && 0 <= acc.threat
    ensures acc'.threat == Max(acc.threat, MaxThreat(d, Texts(j))) && (acc'.threat > 0) == (acc'.reasons != [])
    decreases j
  {
    hide TextThreat, MaxThreat;
    acc' := acc;
    match j {
      case Str(text) =>
        OneText(d, text);
        acc' := Note(d, text, acc');
      case Arr(items) =>
        MaxThreatBounds(d, ItemTexts(items));
        for i := 0 to |items|
          invariant 0 <= acc'.threat && (acc'.threat > 0) == (acc'.reasons != [])
          invariant Max(acc.threat, MaxThreat(d, ItemTexts(items)))
                  == Max(acc'.threat, MaxThreat(d, ItemTexts(items[i..])))
        {
          ItemStep(d, items, i);
          acc' := Traverse(d, items[i], acc');
        }
        OneText(d, "");
      case Obj(fields) =>
        MaxThreatBounds(d, FieldTexts(fields));
        for i := 0 to |fields|
          invariant 0 <= acc'.threat && (acc'.threat > 0) == (acc'.reasons != [])
          invariant Max(acc.threat, MaxThreat(d, FieldTexts(fields)))
                  == Max(acc'.threat, MaxThreat(d, FieldTexts(fields[i..])))
        {
          var Field(key, value) := fields[i];
          FieldStep(d, fields, i);
          acc' := Note(d, key, acc');
          acc' := Traverse(d, value, acc');
        }
        OneText(d, "");
      case _ =>
        OneText(d, "");
    }
  }

  /** `inspect_payload`: the score is the maximum over every key and every string leaf of the tree. */
  method InspectPayload(d: Detectors, payload: Json) returns (attack: bool, reasons: seq<Find>, score: int)
    ensures score == MaxThreat(d, Texts(payload)) && attack == (score > 0) && attack == (reasons != [])
    ensures ScoreOf(d, payload, score)
  {
    MaxThreatIsScore(d, payload);
    hide ScoreOf;
    var acc := Traverse(d, payload, Acc(0, []));
    MaxThreatBounds(d, Texts(payload));
    attack, reasons, score := |acc.reasons| > 0, acc.reasons, Min(100, acc.threat);
  }

  /** `inspect_content`: `parsed` is what the body parses to when it looks like JSON and parses. */
  method InspectContent(d: Detectors, content: string, parsed: Option<Json>)
    returns (attack: bool, reasons: seq<Find>, score: int)
    ensures score == ContentThreat(d, content, parsed)
    ensures attack == (score > 0) && attack == (reasons != [])
  {
    attack, reasons, score := InspectText(d, content);
    if content != "" && parsed.Some? {
      MaxThreatBounds(d, Texts(parsed.value));
      var jsonAttack, jsonReasons, jsonScore := InspectPayload(d, parsed.value);
      if jsonAttack {
        reasons := reasons + jsonReasons;
        score := Max(score, jsonScore);
      }
      attack := |reasons| > 0;
    }
  }
}
