/** The tamper-evident audit chain: appending, restarting and verifying a log linked by keyed digests.
    The keyed digest (HMAC, section 2 of RFC 2104) and the canonical JSON encoding are parameters. */
module AuditChain {
  import opened Basics

  /** The position a record claims. A value that is no number makes arithmetic on it raise. */
  datatype Index = Missing | NotNumeric | At(number: int)

  /** A parsed record. A field that the JSON object lacks is `None` or `Missing`. `unsigned` is everything in the object
      that no signature covers: the timestamp, and whatever other keys it may have. */
  datatype Block<P> = Block(index: Index, previous: Option<string>, signature: Option<string>, payload: P,
                            unsigned: string)

  /** One line of the log file: blank, not JSON at all, or a record. */
  datatype Line<P> = Blank | Malformed | Rec(block: Block<P>)

  /** A verification verdict; `Raised` is the exception for a signature that is missing or not ASCII. */
  datatype Verdict = Valid(count: nat) | Invalid(count: nat) | Raised(count: nat)

  /** The keyed digest and the canonical encoding that signatures are computed with, and what a payload becomes
      when it is written as JSON and read back. */
  datatype Keys<!P> = Keys(mac: string -> string, canonical: P -> string, reread: P -> P)

  function GenesisFrom(n: nat): string { if n == 0 then "" else "0" + GenesisFrom(n - 1) }

  /** Sixty-four zeros. */
  function Genesis(): string { GenesisFrom(64) }

  function Digits(n: nat): string {
    if n < 10 then [('0' as int + n) as char] else Digits(n / 10) + [('0' as int + n % 10) as char]
  }

  /** Decimal notation. */
  function Decimal(n: int): string { if n < 0 then "-" + Digits(-n) else Digits(n) }

  function SignString(index: int, previous: string, text: string): string {
    Decimal(index) + ":" + previous + ":" + text
  }

  function Sign<P>(keys: Keys<P>, index: int, previous: string, payload: P): string {
    keys.mac(SignString(index, previous, keys.canonical(payload)))
  }

  // ---------------------------------------------------------------- signing strings are injective

  predicate NoColon(s: string) { forall i | 0 <= i < |s| :: s[i] != ':' }

  lemma {:induction false} DigitsNoColon(n: nat)
    ensures NoColon(Digits(n)) && |Digits(n)| > 0
  {
    if n >= 10 {
      DigitsNoColon(n / 10);
    }
  }

  lemma {:induction false} DigitsInjective(m: nat, n: nat)
    requires Digits(m) == Digits(n)
    ensures m == n
  {
    var s, t := Digits(m), Digits(n);
    if m < 10 || n < 10 {
      DigitsNoColon(m / 10);
      DigitsNoColon(n / 10);
      assert |s| == |t|;
      assert s[0] == t[0];
    } else {
      assert s[..|s| - 1] == Digits(m / 10) && t[..|t| - 1] == Digits(n / 10);
      assert s[|s| - 1] == t[|t| - 1];
      DigitsInjective(m / 10, n / 10);
    }
  }

  /** A string splits at its first colon in one way only. */
  lemma SplitAtColon(a: string, x: string, b: string, y: string)
    requires NoColon(a) && NoColon(b) && a + ":" + x == b + ":" + y
    ensures a == b && x == y
  {
    var s := a + ":" + x;
    assert s[|a|] == ':' && s[|b|] == ':';
    assert a == s[..|a|] && b == s[..|b|];
    assert x == s[|a| + 1..] && y == s[|b| + 1..];
  }

  /** The signing string determines the index, the link and the canonical payload, provided the links hold no colon. */
  lemma SignStringInjective(i: nat, previous: string, text: string, j: nat, previous2: string, text2: string)
    requires NoColon(previous) && NoColon(previous2)
    requires SignString(i, previous, text) == SignString(j, previous2, text2)
    ensures i == j && previous == previous2 && text == text2
  {
    DigitsNoColon(i);
    DigitsNoColon(j);
    assert Decimal(i) + ":" + (previous + ":" + text) == SignString(i, previous, text);
    assert Decimal(j) + ":" + (previous2 + ":" + text2) == SignString(j, previous2, text2);
    SplitAtColon(Decimal(i), previous + ":" + text, Decimal(j), previous2 + ":" + text2);
    SplitAtColon(previous, text, previous2, text2);
    DigitsInjective(i, j);
  }

  /** Without that proviso it does not: a colon in the link can move into the payload. */
  lemma SignStringAmbiguous()
    ensures SignString(0, "a:b", "c") == SignString(0, "a", "b:c")
  {
    assert Decimal(0) + ":" + "a:b" + ":" + "c" == Decimal(0) + ":" + "a" + ":" + "b:c";
  }

  /** What a numeral stands for. */
  function ValueOf(digits: string): int {
    if digits == "" then 0 else 10 * ValueOf(digits[..|digits| - 1]) + (digits[|digits| - 1] as int - '0' as int)
  }

  /** Positions are signed in decimal notation. */
  lemma {:induction false} DigitsRead(n: nat)
    ensures ValueOf(Digits(n)) == n && forall i | 0 <= i < |Digits(n)| :: '0' <= Digits(n)[i] <= '9'
  {
    if n < 10 {
      assert Digits(n)[..0] == "";
    } else {
      DigitsRead(n / 10);
      assert Digits(n)[..|Digits(n)| - 1] == Digits(n / 10);
    }
  }

  /** The first record links to sixty-four zeros. */
  lemma GenesisIsZeros()
    ensures |Genesis()| == 64 && forall i | 0 <= i < 64 :: Genesis()[i] == '0'
  {
    ZerosFrom(64);
  }

  lemma {:induction false} ZerosFrom(n: nat)
    ensures |GenesisFrom(n)| == n && forall i | 0 <= i < n :: GenesisFrom(n)[i] == '0'
  {
    if n == 0 {
    } else {
      ZerosFrom(n - 1);
    }
  }

  // ---------------------------------------------------------------- what a valid chain is

  /** The records of a log, in order. */
  function Records<P>(lines: seq<Line<P>>): seq<Block<P>> {
    if lines == [] then []
    else Records(lines[..|lines| - 1]) + if lines[|lines| - 1].Rec? then [lines[|lines| - 1].block] else []
  }

  predicate Clean<P>(lines: seq<Line<P>>) { forall i | 0 <= i < |lines| :: !lines[i].Malformed? }

  /** The link that record `i` must carry. */
  function Link<P>(blocks: seq<Block<P>>, i: nat): Option<string>
    requires i <= |blocks|
  {
    if i == 0 then Some(Genesis()) else blocks[i - 1].signature
  }

  /** Record `i` carries its position, the signature before it, and the signature of the three together. */
  predicate Linked<P>(keys: Keys<P>, blocks: seq<Block<P>>, i: nat)
    requires i < |blocks|
  {
    && blocks[i].index == At(i)
    && blocks[i].previous == Link(blocks, i) && blocks[i].previous.Some?
    && blocks[i].signature == Some(Sign(keys, i, blocks[i].previous.value, blocks[i].payload))
  }

  ghost predicate Chain<P>(keys: Keys<P>, blocks: seq<Block<P>>) {
    forall i | 0 <= i < |blocks| :: Linked(keys, blocks, i)
  }

  predicate Ascii(s: string) { forall i | 0 <= i < |s| :: s[i] < 128 as char }

  /** Digests are hexadecimal text: ASCII and without a colon. */
  ghost predicate HexDigests<P(!new)>(keys: Keys<P>) {
    forall x: string :: NoColon(keys.mac(x)) && Ascii(keys.mac(x))
  }

  lemma {:induction false} GenesisNoColon(n: nat)
    ensures NoColon(GenesisFrom(n))
  {
    if n == 0 {
    } else {
      GenesisNoColon(n - 1);
    }
  }

  // ---------------------------------------------------------------- verification

  /** What one more record makes of a verdict that is valid so far. */
  function Check<P>(keys: Keys<P>, expected: Option<string>, count: nat, b: Block<P>): Verdict {
    if b.index != At(count) then Invalid(count)
    else if b.previous == None || b.previous != expected then Invalid(count)
    else if b.signature == None || !Ascii(b.signature.value) then Raised(count)
    else if b.signature.value != Sign(keys, count, b.previous.value, b.payload) then Invalid(count)
    else Valid(count + 1)
  }

  function Verify<P>(keys: Keys<P>, lines: seq<Line<P>>): (v: Verdict)
    ensures v.Valid? ==> v.count == |Records(lines)|
  {
    if lines == [] then Valid(0) else
    var before, last := lines[..|lines| - 1], lines[|lines| - 1];
    var v := Verify(keys, before);
    if !v.Valid? then v
    else match last
      case Blank => v
      case Malformed => Invalid(v.count)
      case Rec(b) => Check(keys, Link(Records(before), v.count), v.count, b)
  }

  lemma {:induction false} ChainGrows<P>(keys: Keys<P>, blocks: seq<Block<P>>, b: Block<P>)
    ensures Chain(keys, blocks + [b]) <==> Chain(keys, blocks) && Linked(keys, blocks + [b], |blocks|)
  {
    forall i | 0 <= i < |blocks|
      ensures Linked(keys, blocks + [b], i) == Linked(keys, blocks, i)
    {
      assert Link(blocks + [b], i) == Link(blocks, i);
    }
    if Chain(keys, blocks + [b]) {
      assert forall i | 0 <= i < |blocks| :: Linked(keys, blocks + [b], i);
    }
  }

  /** A log is accepted exactly when none of its lines is malformed and its records form a chain. */
  lemma {:induction false} VerifyAcceptsChains<P(!new)>(keys: Keys<P>, lines: seq<Line<P>>)
    requires HexDigests(keys)
    ensures Verify(keys, lines).Valid? <==> Clean(lines) && Chain(keys, Records(lines))
  {
    if lines == [] {
    } else {
      var before, last := lines[..|lines| - 1], lines[|lines| - 1];
      VerifyAcceptsChains(keys, before);
      assert Clean(lines) <==> Clean(before) && !last.Malformed?;
      if last.Rec? {
        ChainGrows(keys, Records(before), last.block);
        assert Link(Records(lines), |Records(before)|) == Link(Records(before), |Records(before)|);
      } else {
        assert Records(lines) == Records(before);
      }
    }
  }

  /** One more line never turns a rejected log into an accepted one, and leaves its count alone. */
  lemma {:induction false} VerifyStep<P>(keys: Keys<P>, lines: seq<Line<P>>)
    requires lines != []
    ensures var v, before := Verify(keys, lines), Verify(keys, lines[..|lines| - 1]);
            (v.Valid? ==> before.Valid?) && (!v.Valid? ==> v.count == before.count)
  {
  }

  /** Which record makes the verifier raise rather than answer: one that continues the chain by position and link, but
      whose signature is missing or not ASCII. */
  lemma RaisesExactly<P>(keys: Keys<P>, lines: seq<Line<P>>, b: Block<P>)
    requires Verify(keys, lines).Valid?
    ensures Verify(keys, lines + [Rec(b)]).Raised? <==>
              && b.index == At(|Records(lines)|) && b.previous.Some?
              && b.previous == Link(Records(lines), |Records(lines)|)
              && (b.signature == None || exists i | 0 <= i < |b.signature.value| :: b.signature.value[i] as int >= 128)
  {
    assert (lines + [Rec(b)])[..|lines|] == lines;
  }

  /** Whatever the log, the reported count is the number of records in its longest acceptable prefix of lines. */
  lemma {:induction false} VerifyCountsLongestPrefix<P(!new)>(keys: Keys<P>, lines: seq<Line<P>>) returns (n: nat)
    ensures n <= |lines|
    ensures Verify(keys, lines[..n]).Valid?
            && Verify(keys, lines).count == Verify(keys, lines[..n]).count == |Records(lines[..n])|
    ensures forall m | n < m <= |lines| :: !Verify(keys, lines[..m]).Valid?
  {
    hide Verify, Records;
    VerifyNothing(keys);
    assert lines[..|lines|] == lines;
    if Verify(keys, lines).Valid? {
      n := |lines|;
    } else {
      VerifyStep(keys, lines);
      var before := lines[..|lines| - 1];
      n := VerifyCountsLongestPrefix(keys, before);
      forall m | 0 <= m <= |before|
        ensures before[..m] == lines[..m]
      {
      }
    }
  }

  // ---------------------------------------------------------------- tampering

  /** `log` repeats the first records of `original` up to what is unsigned. */
  ghost predicate RepeatsPrefix<P>(keys: Keys<P>, log: seq<Block<P>>, original: seq<Block<P>>) {
    && |log| <= |original|
    && forall i | 0 <= i < |log| :: SameRecord(keys, log[i], original[i])
  }

  /** Some record of the original bears this signature. */
  predicate IssuedIn<P>(signature: Option<string>, original: seq<Block<P>>) {
    exists j | 0 <= j < |original| :: original[j].signature == signature
  }

  lemma LinkNoColon<P(!new)>(keys: Keys<P>, blocks: seq<Block<P>>, i: nat)
    requires HexDigests(keys) && Chain(keys, blocks) && i < |blocks|
    ensures blocks[i].previous.Some? && NoColon(blocks[i].previous.value)
  {
    assert Linked(keys, blocks, i);
    if i == 0 {
      GenesisNoColon(64);
    } else {
      assert Linked(keys, blocks, i - 1);
    }
  }

  /** What the signature of a record is computed over. */
  function SignedText<P>(keys: Keys<P>, b: Block<P>): string {
    SignString(if b.index.At? then b.index.number else 0,
               if b.previous.Some? then b.previous.value else "", keys.canonical(b.payload))
  }

  /** A record of one log and a record of the other are signed over different texts that share one digest. */
  ghost predicate Collides<P>(keys: Keys<P>, log: seq<Block<P>>, original: seq<Block<P>>) {
    exists i, j | 0 <= i < |log| && 0 <= j < |original| ::
      SignedText(keys, log[i]) != SignedText(keys, original[j])
      && keys.mac(SignedText(keys, log[i])) == keys.mac(SignedText(keys, original[j]))
  }

  /** The record has a position and a link without a colon, and bears the signature of its own text. */
  predicate SealedBlock<P>(keys: Keys<P>, b: Block<P>) {
    && b.index.At? && 0 <= b.index.number && b.previous.Some? && NoColon(b.previous.value)
    && b.signature == Some(keys.mac(SignedText(keys, b)))
  }

  /** The two records agree in everything that is signed, the payload compared in canonical form. */
  predicate SameRecord<P>(keys: Keys<P>, b: Block<P>, c: Block<P>) {
    && b.index == c.index && b.previous == c.previous && b.signature == c.signature
    && keys.canonical(b.payload) == keys.canonical(c.payload)
  }

  lemma ChainIsSealed<P(!new)>(keys: Keys<P>, blocks: seq<Block<P>>, i: nat)
    requires HexDigests(keys) && Chain(keys, blocks) && i < |blocks|
    ensures SealedBlock(keys, blocks[i]) && blocks[i].index == At(i)
  {
    assert Linked(keys, blocks, i);
    LinkNoColon(keys, blocks, i);
  }

  /** One signature on two sealed records makes them the same up to what is unsigned, or their texts collide. */
  lemma SameSignature<P(!new)>(keys: Keys<P>, log: seq<Block<P>>, i: nat, original: seq<Block<P>>, j: nat)
    requires i < |log| && j < |original| && SealedBlock(keys, log[i]) && SealedBlock(keys, original[j])
    requires log[i].signature == original[j].signature
    ensures SameRecord(keys, log[i], original[j]) || Collides(keys, log, original)
  {
    var b, c := log[i], original[j];
    if SignedText(keys, b) == SignedText(keys, c) {
      SignStringInjective(b.index.number, b.previous.value, keys.canonical(b.payload),
                          c.index.number, c.previous.value, keys.canonical(c.payload));
    }
  }

  /** An accepted log whose signatures were all issued with a chain repeats the first records of that chain,
      or exhibits a collision between a text of its own and one of the chain's. */
  lemma AcceptedRepeats<P(!new)>(keys: Keys<P>, log: seq<Block<P>>, original: seq<Block<P>>)
    requires HexDigests(keys) && Chain(keys, log) && Chain(keys, original)
    requires forall i | 0 <= i < |log| :: IssuedIn(log[i].signature, original)
    ensures RepeatsPrefix(keys, log, original) || Collides(keys, log, original)
  {
    if !Collides(keys, log, original) {
      forall i: nat | i < |log|
        ensures i < |original| && SameRecord(keys, log[i], original[i])
      {
        assert IssuedIn(log[i].signature, original);
        var j :| 0 <= j < |original| && original[j].signature == log[i].signature;
        ChainIsSealed(keys, log, i);
        ChainIsSealed(keys, original, j);
        hide Collides, SealedBlock;
        SameSignature(keys, log, i, original, j);
      }
      if log != [] {
        assert SameRecord(keys, log[|log| - 1], original[|log| - 1]);
      }
    }
  }

  /** What repeats the first records of a chain is a chain. */
  lemma {:induction false} PrefixIsChain<P>(keys: Keys<P>, log: seq<Block<P>>, original: seq<Block<P>>)
    requires Chain(keys, original) && RepeatsPrefix(keys, log, original)
    ensures Chain(keys, log)
  {
    forall i: nat | i < |log|
      ensures Linked(keys, log, i)
    {
      assert SameRecord(keys, log[i], original[i]) && Linked(keys, original, i);
      assert 0 < i ==> SameRecord(keys, log[i - 1], original[i - 1]);
    }
  }

  /** Take any log whose signatures were all issued in one run. If it is well formed and repeats the first records of
      what that run wrote, up to what is unsigned, the verifier accepts it. If the verifier accepts it, it does just
      that, or some record of it and some record of the run are signed over different texts with one digest. So every
      insertion, deletion, reordering or edit of a signed part costs a collision. Two things cost nothing: dropping
      records from the end, and rewriting what is unsigned. */
  lemma AcceptedExactlyPrefixes<P(!new)>(keys: Keys<P>, lines: seq<Line<P>>, original: seq<Block<P>>)
    requires HexDigests(keys) && Chain(keys, original)
    requires forall i | 0 <= i < |Records(lines)| :: IssuedIn(Records(lines)[i].signature, original)
    ensures Clean(lines) && RepeatsPrefix(keys, Records(lines), original) ==> Verify(keys, lines).Valid?
    ensures Verify(keys, lines).Valid? ==>
              Clean(lines) && (RepeatsPrefix(keys, Records(lines), original)
                               || Collides(keys, Records(lines), original))
  {
    VerifyAcceptsChains(keys, lines);
    hide Verify, Records, RepeatsPrefix, Collides, IssuedIn, Clean;
    if Chain(keys, Records(lines)) {
      AcceptedRepeats(keys, Records(lines), original);
    }
    if RepeatsPrefix(keys, Records(lines), original) {
      PrefixIsChain(keys, Records(lines), original);
    }
  }

  // ---------------------------------------------------------------- single edits

  /** The two records differ at most in what is unsigned. */
  predicate SameButUnsigned<P(==)>(b: Block<P>, c: Block<P>) { b == c.(unsigned := b.unsigned) }

  ghost predicate SameLinesButUnsigned<P>(lines: seq<Line<P>>, others: seq<Line<P>>) {
    && |lines| == |others|
    && forall i | 0 <= i < |lines| ::
         lines[i] == others[i] || (lines[i].Rec? && others[i].Rec? && SameButUnsigned(lines[i].block, others[i].block))
  }

  /** The verifier does not look at what is unsigned: rewriting it, in any number of records, changes no verdict. */
  lemma {:induction false} VerifyIgnoresUnsigned<P(!new)>(keys: Keys<P>, lines: seq<Line<P>>, others: seq<Line<P>>)
    requires SameLinesButUnsigned(lines, others)
    ensures Verify(keys, others) == Verify(keys, lines) && |Records(others)| == |Records(lines)|
    ensures forall n | 0 <= n < |Records(lines)| :: Records(others)[n].signature == Records(lines)[n].signature
  {
    if lines == [] {
      assert others == [];
    } else {
      var n := |lines| - 1;
      assert lines[n].Rec? == others[n].Rec?;
      VerifyIgnoresUnsigned(keys, lines[..n], others[..n]);
      var v := Verify(keys, lines[..n]);
      if v.Valid? {
        assert Link(Records(others[..n]), v.count) == Link(Records(lines[..n]), v.count);
      }
    }
  }

  lemma {:induction false} RecordsEdit<P>(lines: seq<Line<P>>, i: nat, c: Block<P>) returns (k: nat)
    requires i < |lines| && lines[i].Rec?
    ensures k < |Records(lines)| && Records(lines)[k] == lines[i].block
    ensures Records(lines[i := Rec(c)]) == Records(lines)[k := c]
  {
    var n := |lines| - 1;
    if i == n {
      k := |Records(lines[..n])|;
      assert lines[i := Rec(c)][..n] == lines[..n];
    } else {
      k := RecordsEdit(lines[..n], i, c);
      assert lines[i := Rec(c)][..n] == lines[..n][i := Rec(c)];
    }
  }

  /** Replace one record of an accepted log, keeping its signature. The log stays accepted exactly when position and
      link are the same and the signed text has the same digest; nothing else about the record matters. */
  lemma EditAcceptedExactly<P(!new)>(keys: Keys<P>, lines: seq<Line<P>>, i: nat, c: Block<P>)
    requires HexDigests(keys) && Verify(keys, lines).Valid? && i < |lines| && lines[i].Rec?
    requires c.signature == lines[i].block.signature
    ensures var b := lines[i].block;
            Verify(keys, lines[i := Rec(c)]).Valid? <==>
              && c.index == b.index && c.previous == b.previous
              && keys.mac(SignedText(keys, c)) == keys.mac(SignedText(keys, b))
  {
    var b, edited := lines[i].block, lines[i := Rec(c)];
    var k := RecordsEdit(lines, i, c);
    VerifyAcceptsChains(keys, lines);
    VerifyAcceptsChains(keys, edited);
    var blocks, others := Records(lines), Records(edited);
    hide Verify, Records, HexDigests;
    assert Clean(edited);
    assert Linked(keys, blocks, k);
    assert Link(others, k) == Link(blocks, k);
    assert Linked(keys, others, k) <==>
             && c.index == b.index && c.previous == b.previous
             && keys.mac(SignedText(keys, c)) == keys.mac(SignedText(keys, b));
    forall n: nat | n < |blocks| && n != k
      ensures Linked(keys, others, n)
    {
      assert Linked(keys, blocks, n) && Link(others, n) == Link(blocks, n);
    }
  }

  // ---------------------------------------------------------------- appending and restarting

  /** How a write to the log file can go: the line lands, nothing lands, a fragment lands that does not parse, the line
      lands and the call fails all the same, or all of the line but its end of line lands. Every outcome but the first
      raises. */
  datatype Write = Written | NothingWritten | Torn | WrittenThenFailed | Unterminated

  /** A record that can be parsed reaches the file. */
  predicate Lands(w: Write) { w == Written || w == WrittenThenFailed || w == Unterminated }

  /** The file; `open` says that its last line lacks its end. */
  datatype File<P> = File(lines: seq<Line<P>>, open: bool)

  /** One process's chain: the file, and what the process remembers of it. */
  datatype State<P> = State(file: File<P>, lastHash: string, blockCount: int)

  /** `stamp` is the timestamp written into the record. */
  datatype Step<P> = Append(event: P, stamp: string, write: Write) | Restart

  /** What a write leaves in the file. Whatever lands after a line without its end becomes one line with it, which does
      not parse: a record or a fragment of one, followed by the opening of another. */
  function Land<P>(f: File<P>, b: Block<P>, w: Write): File<P> {
    if w == NothingWritten then f
    else
      var lines := if f.open && f.lines != [] then f.lines[..|f.lines| - 1] + [Malformed]
                   else f.lines + [if w == Torn then Malformed else Rec(b)];
      File(lines, w == Torn || w == Unterminated)
  }

  function Seal<P>(keys: Keys<P>, st: State<P>, event: P, stamp: string): Block<P> {
    Block(At(st.blockCount), Some(st.lastHash), Some(Sign(keys, st.blockCount, st.lastHash, event)), event, stamp)
  }

  /** A record as readers of the file will parse it. */
  function AsRead<P>(keys: Keys<P>, b: Block<P>): Block<P> { b.(payload := keys.reread(b.payload)) }

  function AppendEvent<P>(keys: Keys<P>, st: State<P>, event: P, stamp: string, w: Write): State<P> {
    var b := Seal(keys, st, event, stamp);
    var file := Land(st.file, AsRead(keys, b), w);
    if w == Written then State(file, b.signature.value, st.blockCount + 1) else State(file, st.lastHash, st.blockCount)
  }

  /** `_initialize_from_existing_log` on a prefix of the lines; the third part says whether an exception stopped it.
      The signature of a record is taken before its position is looked at. */
  function Load<P>(lines: seq<Line<P>>): (string, int, bool) {
    if lines == [] then (Genesis(), 0, false) else
    var (hash, count, stopped) := Load(lines[..|lines| - 1]);
    if stopped then (hash, count, stopped)
    else match lines[|lines| - 1]
      case Blank => (hash, count, false)
      case Malformed => (hash, count, true)
      case Rec(b) =>
        var signature := if b.signature.Some? then b.signature.value else Genesis();
        match b.index
        case Missing => (signature, 1, false)
        case NotNumeric => (signature, count, true)
        case At(n) => (signature, n + 1, false)
  }

  function StepState<P>(keys: Keys<P>, st: State<P>, s: Step<P>): State<P> {
    match s
    case Append(event, stamp, w) => AppendEvent(keys, st, event, stamp, w)
    case Restart => State(st.file, Load(st.file.lines).0, Load(st.file.lines).1)
  }

  // ---------------------------------------------------------------- one step of one process

  ghost predicate Acceptable<P>(keys: Keys<P>, lines: seq<Line<P>>) { Clean(lines) && Chain(keys, Records(lines)) }

  /** The file is acceptable, and lacks its last end of line exactly if `dangling`. The process remembers its length and
      last signature, or, if `behind`, fewer records than it has. */
  ghost predicate Fits<P>(keys: Keys<P>, st: State<P>, behind: bool, dangling: bool) {
    && Acceptable(keys, st.file.lines) && st.file.open == dangling && (dangling ==> st.file.lines != [])
    && (if behind then st.blockCount < |Records(st.file.lines)|
        else && st.blockCount == |Records(st.file.lines)|
             && Link(Records(st.file.lines), |Records(st.file.lines)|) == Some(st.lastHash))
  }

  /** The signature that the chain puts on the event holds for the event as it is read back. It does for every event
      that keeps its canonical text when written and read. */
  predicate Survives<P>(keys: Keys<P>, st: State<P>, event: P) {
    Sign(keys, st.blockCount, st.lastHash, keys.reread(event)) == Sign(keys, st.blockCount, st.lastHash, event)
  }

  /** A fragment lands, or a record on a file without its last end of line, or one from a process that is behind, or one
      whose payload does not read back as signed. */
  predicate Breaks<P>(keys: Keys<P>, st: State<P>, behind: bool, dangling: bool, s: Step<P>) {
    && s.Append?
    && (s.write == Torn || (Lands(s.write) && (behind || dangling || !Survives(keys, st, s.event))))
  }

  /** Restarting on an acceptable file finds its length and its last signature. */
  lemma {:induction false} LoadAgrees<P>(keys: Keys<P>, lines: seq<Line<P>>)
    requires Acceptable(keys, lines)
    ensures !Load(lines).2 && Load(lines).1 == |Records(lines)|
    ensures Link(Records(lines), |Records(lines)|) == Some(Load(lines).0)
  {
    if lines == [] {
    } else {
      var before, last := lines[..|lines| - 1], lines[|lines| - 1];
      if last.Rec? {
        ChainGrows(keys, Records(before), last.block);
        assert Linked(keys, Records(lines), |Records(before)|);
      } else {
        assert Records(lines) == Records(before);
      }
      LoadAgrees(keys, before);
    }
  }

  /** A reload stops at the first line that is not JSON, with what the lines before it gave, and at the first record
      whose position is no number, with its signature but the count so far; whatever follows. */
  lemma {:induction false} LoadPastDamage<P>(lines: seq<Line<P>>, bad: Line<P>, more: seq<Line<P>>)
    requires !Load(lines).2 && (bad.Malformed? || (bad.Rec? && bad.block.index.NotNumeric?))
    ensures Load(lines + [bad] + more)
            == (if bad.Malformed? then Load(lines).0
                else if bad.block.signature.Some? then bad.block.signature.value else Genesis(),
                Load(lines).1, true)
  {
    if more == [] {
      assert lines + [bad] + more == lines + [bad];
      assert (lines + [bad])[..|lines|] == lines;
    } else {
      var all, fewer := lines + [bad] + more, more[..|more| - 1];
      assert all[..|all| - 1] == lines + [bad] + fewer;
      LoadPastDamage(lines, bad, fewer);
    }
  }

  /** A record on top of an acceptable file leaves it acceptable exactly when it links to it. */
  lemma {:induction false} OneMoreRecord<P>(keys: Keys<P>, lines: seq<Line<P>>, b: Block<P>)
    requires Acceptable(keys, lines)
    ensures Records(lines + [Rec(b)]) == Records(lines) + [b]
    ensures Acceptable(keys, lines + [Rec(b)]) <==> Linked(keys, Records(lines) + [b], |Records(lines)|)
  {
    var more := lines + [Rec(b)];
    assert more[..|more| - 1] == lines;
    ChainGrows(keys, Records(lines), b);
    assert Clean(more);
  }

  lemma {:induction false} RecordsGrow<P>(lines: seq<Line<P>>, more: seq<Line<P>>)
    requires lines <= more
    ensures Records(lines) <= Records(more)
  {
    if lines == more {
    } else {
      RecordsGrow(lines, more[..|more| - 1]);
    }
  }

  /** No later line makes up for what is wrong with a file. */
  lemma {:induction false} BrokenStays<P>(keys: Keys<P>, lines: seq<Line<P>>, more: seq<Line<P>>)
    requires lines <= more && !Acceptable(keys, lines)
    ensures !Acceptable(keys, more)
  {
    if Acceptable(keys, more) {
      RecordsGrow(lines, more);
      var blocks, all := Records(lines), Records(more);
      hide Records;
      assert forall k | 0 <= k < |lines| :: lines[k] == more[k];
      forall i: nat | i < |blocks|
        ensures Linked(keys, blocks, i)
      {
        assert Linked(keys, all, i);
        assert Link(blocks, i) == Link(all, i);
      }
    }
  }

  lemma {:induction false} FragmentSpoils<P>(keys: Keys<P>, lines: seq<Line<P>>)
    ensures !Acceptable(keys, lines + [Malformed])
  {
    assert (lines + [Malformed])[|lines|].Malformed?;
  }

  /** A step on a broken file leaves it broken. */
  lemma StepStaysBroken<P>(keys: Keys<P>, st: State<P>, s: Step<P>)
    requires !Acceptable(keys, st.file.lines)
    ensures !Acceptable(keys, StepState(keys, st, s).file.lines)
  {
    var lines, more := st.file.lines, StepState(keys, st, s).file.lines;
    if lines <= more {
      BrokenStays(keys, lines, more);
    } else {
      assert more == lines[..|lines| - 1] + [Malformed];
      FragmentSpoils(keys, lines[..|lines| - 1]);
    }
  }

  /** A step that breaks nothing keeps the file acceptable. It adds the record that landed, if any; the process is then
      up to date exactly if its append succeeded. */
  lemma StepKeeps<P>(keys: Keys<P>, st: State<P>, s: Step<P>, behind: bool, dangling: bool)
    requires Fits(keys, st, behind, dangling) && !Breaks(keys, st, behind, dangling, s)
    ensures var st' := StepState(keys, st, s);
            if s.Append? && Lands(s.write) then
              && Fits(keys, st', s.write != Written, s.write == Unterminated)
              && Records(st'.file.lines) == Records(st.file.lines) + [AsRead(keys, Seal(keys, st, s.event, s.stamp))]
            else st'.file == st.file && Fits(keys, st', s.Append? && behind, dangling)
  {
    hide Records, Chain, Clean, Load;
    match s
    case Restart => LoadAgrees(keys, st.file.lines);
    case Append(event, stamp, w) => OneMoreRecord(keys, st.file.lines, AsRead(keys, Seal(keys, st, event, stamp)));
  }

  /** A step that breaks something leaves a file that is not acceptable. */
  lemma StepSpoils<P>(keys: Keys<P>, st: State<P>, s: Step<P>, behind: bool, dangling: bool)
    requires Fits(keys, st, behind, dangling) && Breaks(keys, st, behind, dangling, s)
    ensures !Acceptable(keys, StepState(keys, st, s).file.lines)
  {
    var lines := st.file.lines;
    hide Records, Chain, Clean;
    if dangling {
      FragmentSpoils(keys, lines[..|lines| - 1]);
    } else {
      FragmentSpoils(keys, lines);
      OneMoreRecord(keys, lines, AsRead(keys, Seal(keys, st, s.event, s.stamp)));
    }
  }

  // ---------------------------------------------------------------- runs of several processes

  datatype Memory = Memory(lastHash: string, blockCount: int)

  /** Several processes with one log file, each with its own memory of it. */
  datatype Site<P> = Site(file: File<P>, memories: seq<Memory>)

  /** One process takes a step. */
  datatype Move<P> = Move(writer: nat, step: Step<P>)

  function StateAt<P>(site: Site<P>, w: nat): State<P>
    requires w < |site.memories|
  {
    State(site.file, site.memories[w].lastHash, site.memories[w].blockCount)
  }

  function StepSite<P>(keys: Keys<P>, site: Site<P>, m: Move<P>): Site<P>
    requires m.writer < |site.memories|
  {
    var st := StepState(keys, StateAt(site, m.writer), m.step);
    Site(st.file, site.memories[m.writer := Memory(st.lastHash, st.blockCount)])
  }

  predicate Manned<P>(moves: seq<Move<P>>, writers: nat) { forall i | 0 <= i < |moves| :: moves[i].writer < writers }

  /** The state after a sequence of moves of so many processes, all started on an empty file. */
  function Run<P>(keys: Keys<P>, writers: nat, moves: seq<Move<P>>): (site: Site<P>)
    requires Manned(moves, writers)
    ensures |site.memories| == writers
  {
    if moves == [] then Site(File([], false), seq(writers, _ => Memory(Genesis(), 0)))
    else StepSite(keys, Run(keys, writers, moves[..|moves| - 1]), moves[|moves| - 1])
  }

  /** The events whose records reached the file whole, whether or not their append was reported to have failed. */
  function Landed<P>(moves: seq<Move<P>>): seq<P> {
    if moves == [] then []
    else
      var s := moves[|moves| - 1].step;
      Landed(moves[..|moves| - 1]) + if s.Append? && Lands(s.write) then [s.event] else []
  }

  /** Which processes are behind the file and whether its last line lacks its end; or the file is beyond repair. */
  datatype Health = Intact(behind: set<nat>, dangling: bool) | Broken

  function Everyone(writers: nat): (all: set<nat>)
    ensures forall w: nat :: w in all <==> w < writers
  {
    if writers == 0 then {} else Everyone(writers - 1) + {writers - 1}
  }

  /** What a move makes of the health. A restart catches up. A record that lands leaves every other process behind, and
      its own if the append was reported to have failed. */
  function NextHealth<P>(keys: Keys<P>, site: Site<P>, h: Health, m: Move<P>): Health
    requires m.writer < |site.memories|
  {
    var w := m.writer;
    if h == Broken || Breaks(keys, StateAt(site, w), w in h.behind, h.dangling, m.step) then Broken
    else match m.step
      case Restart => Intact(h.behind - {w}, h.dangling)
      case Append(_, _, write) =>
        if !Lands(write) then h
        else Intact(Everyone(|site.memories|) - (if write == Written then {w} else {}), write == Unterminated)
  }

  function HealthOf<P>(keys: Keys<P>, writers: nat, moves: seq<Move<P>>): Health
    requires Manned(moves, writers)
  {
    if moves == [] then Intact({}, false)
    else
      var before := moves[..|moves| - 1];
      NextHealth(keys, Run(keys, writers, before), HealthOf(keys, writers, before), moves[|moves| - 1])
  }

  /** The health tells the truth. */
  ghost predicate Truthful<P>(keys: Keys<P>, site: Site<P>, h: Health) {
    match h
    case Broken => !Acceptable(keys, site.file.lines)
    case Intact(behind, dangling) =>
      && Acceptable(keys, site.file.lines)
      && forall w: nat | w < |site.memories| :: Fits(keys, StateAt(site, w), w in behind, dangling)
  }

  /** A move changes the health as said, and adds exactly the landed record. */
  lemma MoveHealth<P>(keys: Keys<P>, site: Site<P>, m: Move<P>, h: Health)
    requires m.writer < |site.memories| && Truthful(keys, site, h)
    ensures Truthful(keys, StepSite(keys, site, m), NextHealth(keys, site, h, m))
    ensures NextHealth(keys, site, h, m) != Broken ==>
              Records(StepSite(keys, site, m).file.lines)
              == Records(site.file.lines)
                 + if m.step.Append? && Lands(m.step.write)
                   then [AsRead(keys, Seal(keys, StateAt(site, m.writer), m.step.event, m.step.stamp))] else []
  {
    hide StepState, Records, Acceptable, Survives, Seal, AsRead;
    var w, st := m.writer, StateAt(site, m.writer);
    if h == Broken {
      StepStaysBroken(keys, st, m.step);
    } else if Breaks(keys, st, w in h.behind, h.dangling, m.step) {
      StepSpoils(keys, st, m.step, w in h.behind, h.dangling);
    } else {
      StepKeeps(keys, st, m.step, w in h.behind, h.dangling);
      OthersFit(keys, site, m, h);
    }
  }

  /** What a move that breaks nothing means to every process. */
  lemma OthersFit<P>(keys: Keys<P>, site: Site<P>, m: Move<P>, h: Health)
    requires m.writer < |site.memories| && h.Intact? && Truthful(keys, site, h)
    requires !Breaks(keys, StateAt(site, m.writer), m.writer in h.behind, h.dangling, m.step)
    ensures Truthful(keys, StepSite(keys, site, m), NextHealth(keys, site, h, m))
  {
    var w, h' := m.writer, NextHealth(keys, site, h, m);
    StepKeeps(keys, StateAt(site, w), m.step, w in h.behind, h.dangling);
    hide StepState, Records, Acceptable, Survives, Seal, AsRead, Breaks;
    assert Acceptable(keys, StepSite(keys, site, m).file.lines);
    forall v: nat | v < |site.memories|
      ensures Fits(keys, StateAt(StepSite(keys, site, m), v), v in h'.behind, h'.dangling)
    {
      if v != w {
        OtherFits(keys, site, m, h, v);
      }
    }
  }

  lemma OtherFits<P>(keys: Keys<P>, site: Site<P>, m: Move<P>, h: Health, v: nat)
    requires m.writer < |site.memories| && h.Intact? && v < |site.memories| && v != m.writer
    requires Fits(keys, StateAt(site, m.writer), m.writer in h.behind, h.dangling)
    requires Fits(keys, StateAt(site, v), v in h.behind, h.dangling)
    requires !Breaks(keys, StateAt(site, m.writer), m.writer in h.behind, h.dangling, m.step)
    ensures var h' := NextHealth(keys, site, h, m);
            Fits(keys, StateAt(StepSite(keys, site, m), v), v in h'.behind, h'.dangling)
  {
    StepKeeps(keys, StateAt(site, m.writer), m.step, m.writer in h.behind, h.dangling);
    hide StepState, Records, Acceptable, Survives, Seal, AsRead, Breaks;
  }

  lemma {:induction false} RunHealth<P>(keys: Keys<P>, writers: nat, moves: seq<Move<P>>)
    requires Manned(moves, writers)
    ensures var site, h := Run(keys, writers, moves), HealthOf(keys, writers, moves);
            && Truthful(keys, site, h)
            && (h != Broken ==>
                  && |Records(site.file.lines)| == |Landed(moves)|
                  && forall i | 0 <= i < |Landed(moves)| ::
                       Records(site.file.lines)[i].payload == keys.reread(Landed(moves)[i]))
  {
    if moves == [] {
    } else {
      var before, last := moves[..|moves| - 1], moves[|moves| - 1];
      RunHealth(keys, writers, before);
      hide StepSite, Truthful, Records, Breaks;
      MoveHealth(keys, Run(keys, writers, before), last, HealthOf(keys, writers, before));
    }
  }

  /** Any run of appends, failed appends and restarts of any number of processes over one file. The log verifies with
      the block count of a given process if and only if the run broke nothing and left that process up to date; it
      verifies at all if and only if the run broke nothing; its payloads are then the events that landed, as read
      back, in order. */
  lemma RunVerifiesExactly<P(!new)>(keys: Keys<P>, writers: nat, moves: seq<Move<P>>)
    requires HexDigests(keys) && Manned(moves, writers)
    ensures var site, h := Run(keys, writers, moves), HealthOf(keys, writers, moves);
            && (Verify(keys, site.file.lines).Valid? <==> h != Broken)
            && (forall w: nat | w < writers ::
                  && Verify(keys, site.file.lines) == Valid(|Records(site.file.lines)|)
                  && |Records(site.file.lines)| == StateAt(site, w).blockCount
                  <==> h != Broken && w !in h.behind)
            && (h != Broken ==>
                  && |Records(site.file.lines)| == |Landed(moves)|
                  && forall i | 0 <= i < |Landed(moves)| ::
                       Records(site.file.lines)[i].payload == keys.reread(Landed(moves)[i]))
  {
    RunHealth(keys, writers, moves);
    var site := Run(keys, writers, moves);
    VerifyAcceptsChains(keys, site.file.lines);
    hide Run, Records, Chain, Clean, HexDigests, Landed, HealthOf, Verify;
    forall w: nat | w < writers && HealthOf(keys, writers, moves).Intact?
      ensures Fits(keys, StateAt(site, w), w in HealthOf(keys, writers, moves).behind,
              HealthOf(keys, writers, moves).dangling)
    {
    }
  }

  /** Once broken, always broken: whatever is appended and however often the processes restart. */
  lemma {:induction false} BrokenForever<P>(keys: Keys<P>, writers: nat, moves: seq<Move<P>>, n: nat)
    requires Manned(moves, writers) && n <= |moves| && HealthOf(keys, writers, moves[..n]) == Broken
    ensures HealthOf(keys, writers, moves) == Broken
  {
    if n == |moves| {
      assert moves[..n] == moves;
    } else {
      assert moves[..|moves| - 1][..n] == moves[..n];
      BrokenForever(keys, writers, moves[..|moves| - 1], n);
    }
  }

  /** A fragment that does not parse is never forgiven: from then on the log is rejected. */
  lemma TornForever<P(!new)>(keys: Keys<P>, writers: nat, moves: seq<Move<P>>, i: nat)
    requires HexDigests(keys) && Manned(moves, writers)
    requires i < |moves| && moves[i].step.Append? && moves[i].step.write == Torn
    ensures !Verify(keys, Run(keys, writers, moves).file.lines).Valid?
  {
    assert moves[..i + 1][..i] == moves[..i];
    BrokenForever(keys, writers, moves, i + 1);
    RunVerifiesExactly(keys, writers, moves);
  }

  /** Two processes cannot share a log without restarting in between: after a record of one landed, a record of another
      that has not restarted since breaks the log for good. */
  lemma ForkBreaks<P(!new)>(keys: Keys<P>, writers: nat, moves: seq<Move<P>>, i: nat, j: nat)
    requires HexDigests(keys) && Manned(moves, writers) && i < j < |moves| && moves[i].writer != moves[j].writer
    requires moves[i].step.Append? && Lands(moves[i].step.write) && moves[j].step.Append? && Lands(moves[j].step.write)
    requires forall k | i < k < j :: moves[k].writer == moves[j].writer ==> moves[k].step.Append?
    ensures !Verify(keys, Run(keys, writers, moves).file.lines).Valid?
  {
    hide Run, HealthOf, Verify, Survives;
    LeftBehind(keys, writers, moves, i, moves[j].writer, j);
    HealthNext(keys, writers, moves, j);
    BrokenForever(keys, writers, moves, j + 1);
    RunVerifiesExactly(keys, writers, moves);
  }

  lemma {:induction false} HealthNext<P>(keys: Keys<P>, writers: nat, moves: seq<Move<P>>, n: nat)
    requires Manned(moves, writers) && n < |moves|
    ensures HealthOf(keys, writers, moves[..n + 1])
            == NextHealth(keys, Run(keys, writers, moves[..n]), HealthOf(keys, writers, moves[..n]), moves[n])
  {
    assert moves[..n + 1][..n] == moves[..n];
  }

  /** After a record of another process, a process that does not restart is behind, or the file is broken. */
  lemma {:induction false} LeftBehind<P>(keys: Keys<P>, writers: nat, moves: seq<Move<P>>, i: nat, w: nat, n: nat)
    requires Manned(moves, writers) && i < n <= |moves| && w < writers && moves[i].writer != w
    requires moves[i].step.Append? && Lands(moves[i].step.write)
    requires forall k | i < k < n :: moves[k].writer == w ==> moves[k].step.Append?
    ensures var h := HealthOf(keys, writers, moves[..n]); h == Broken || w in h.behind
  {
    hide Run, HealthOf, Survives;
    HealthNext(keys, writers, moves, n - 1);
    if n == i + 1 {
    } else {
      LeftBehind(keys, writers, moves, i, w, n - 1);
    }
  }

  // ---------------------------------------------------------------- tampering with what a run wrote

  /** The tamper theorem for what a run wrote: as long as nothing broke the file, an accepted log made of the run's
      signatures is, up to what is unsigned, a prefix of what the run wrote, payload for payload, or it exhibits a
      collision; and every such prefix is accepted. */
  lemma RunTamperEvident<P(!new)>(keys: Keys<P>, writers: nat, moves: seq<Move<P>>, lines: seq<Line<P>>)
    requires HexDigests(keys) && Manned(moves, writers) && HealthOf(keys, writers, moves) != Broken
    requires forall i | 0 <= i < |Records(lines)| ::
               IssuedIn(Records(lines)[i].signature, Records(Run(keys, writers, moves).file.lines))
    ensures var original := Records(Run(keys, writers, moves).file.lines);
            && (Clean(lines) && RepeatsPrefix(keys, Records(lines), original) ==> Verify(keys, lines).Valid?)
            && (Verify(keys, lines).Valid? ==>
                  || Collides(keys, Records(lines), original)
                  || (&& Clean(lines) && RepeatsPrefix(keys, Records(lines), original)
                      && |Records(lines)| <= |Landed(moves)|
                      && forall i | 0 <= i < |Records(lines)| ::
                           keys.canonical(Records(lines)[i].payload) == keys.canonical(keys.reread(Landed(moves)[i]))))
  {
    RunHealth(keys, writers, moves);
    hide Run, Records, Landed, HealthOf, Clean, Chain, Collides, HexDigests, Verify, IssuedIn;
    var original := Records(Run(keys, writers, moves).file.lines);
    AcceptedExactlyPrefixes(keys, lines, original);
    assert forall i | 0 <= i < |Records(lines)| && RepeatsPrefix(keys, Records(lines), original) ::
        SameRecord(keys, Records(lines)[i], original[i]);
  }

  /** The unsigned part is open to anyone: rewriting the timestamp of any record of any log changes no verdict, so a log
      that one append wrote stays accepted under any other time. */
  lemma StampCanBeRewritten<P(!new)>(keys: Keys<P>, event: P, stamp: string, other: string)
    requires HexDigests(keys) && stamp != other && keys.canonical(keys.reread(event)) == keys.canonical(event)
    ensures var moves := [Move(0, Append(event, stamp, Written))];
            Manned(moves, 1) &&
            var lines := Run(keys, 1, moves).file.lines;
            && |lines| == 1 && lines[0].Rec? && lines[0].block.unsigned == stamp
            && var edited := [Rec(lines[0].block.(unsigned := other))];
               edited != lines && Verify(keys, lines) == Verify(keys, edited) == Valid(1)
  {
    var moves := [Move(0, Append(event, stamp, Written))];
    assert moves[..0] == [];
    var lines := Run(keys, 1, moves).file.lines;
    assert HealthOf(keys, 1, moves) != Broken;
    RunVerifiesExactly(keys, 1, moves);
    assert Landed(moves) == [event];
    VerifyIgnoresUnsigned(keys, lines, [Rec(lines[0].block.(unsigned := other))]);
  }

  // ---------------------------------------------------------------- nothing is invented

  /** Everything the run sealed, whether or not it reached the file. */
  function Issued<P>(keys: Keys<P>, writers: nat, moves: seq<Move<P>>): seq<Block<P>>
    requires Manned(moves, writers)
  {
    if moves == [] then []
    else
      var before, m := moves[..|moves| - 1], moves[|moves| - 1];
      Issued(keys, writers, before)
      + if m.step.Append? then [Seal(keys, StateAt(Run(keys, writers, before), m.writer), m.step.event, m.step.stamp)]
        else []
  }

  /** The record has a position and a signature without a colon. */
  predicate Numbered<P>(b: Block<P>) {
    b.index.At? && 0 <= b.index.number && b.signature.Some? && NoColon(b.signature.value)
  }

  ghost predicate AllNumbered<P>(blocks: seq<Block<P>>) { forall j | 0 <= j < |blocks| :: Numbered(blocks[j]) }

  /** Whatever the run, its records are numbered, its memories hold proper links, and what it issued is sealed. */
  lemma {:induction false} RunIsSealed<P(!new)>(keys: Keys<P>, writers: nat, moves: seq<Move<P>>)
    requires HexDigests(keys) && Manned(moves, writers)
    ensures var site := Run(keys, writers, moves);
            && AllNumbered(Records(site.file.lines))
            && forall w | 0 <= w < writers :: 0 <= site.memories[w].blockCount && NoColon(site.memories[w].lastHash)
    ensures forall j | 0 <= j < |Issued(keys, writers, moves)| :: SealedBlock(keys, Issued(keys, writers, moves)[j])
  {
    if moves == [] {
      GenesisNoColon(64);
    } else {
      var before, m := moves[..|moves| - 1], moves[|moves| - 1];
      RunIsSealed(keys, writers, before);
      StepIsSealed(keys, StateAt(Run(keys, writers, before), m.writer), m.step);
      hide StepState, Records, Genesis, AllNumbered, SealedBlock;
    }
  }

  lemma StepIsSealed<P(!new)>(keys: Keys<P>, st: State<P>, s: Step<P>)
    requires HexDigests(keys) && AllNumbered(Records(st.file.lines)) && 0 <= st.blockCount && NoColon(st.lastHash)
    ensures var st' := StepState(keys, st, s);
            AllNumbered(Records(st'.file.lines)) && 0 <= st'.blockCount && NoColon(st'.lastHash)
    ensures s.Append? ==> SealedBlock(keys, Seal(keys, st, s.event, s.stamp))
  {
    hide Genesis, Records, Land, AllNumbered, SignString, Load;
    match s
    case Restart => LoadIsNumbered(st.file.lines);
    case Append(event, stamp, w) => LandIsNumbered(st.file, AsRead(keys, Seal(keys, st, event, stamp)), w);
  }

  lemma LandIsNumbered<P>(f: File<P>, b: Block<P>, w: Write)
    requires AllNumbered(Records(f.lines)) && Numbered(b)
    ensures AllNumbered(Records(Land(f, b, w).lines))
  {
    hide Numbered;
    var lines := f.lines;
    assert (lines + [Rec(b)])[..|lines|] == lines && (lines + [Malformed])[..|lines|] == lines;
    if lines != [] {
      var cut := lines[..|lines| - 1];
      assert (cut + [Malformed])[..|cut|] == cut;
      RecordsGrow(cut, lines);
      assert forall j | 0 <= j < |Records(cut)| :: Records(cut)[j] == Records(lines)[j];
    }
  }

  lemma {:induction false} LoadIsNumbered<P>(lines: seq<Line<P>>)
    requires AllNumbered(Records(lines))
    ensures 0 <= Load(lines).1 && NoColon(Load(lines).0)
  {
    GenesisNoColon(64);
    if lines == [] {
    } else {
      var before, last := lines[..|lines| - 1], lines[|lines| - 1];
      RecordsGrow(before, lines);
      assert forall j | 0 <= j < |Records(before)| :: Records(before)[j] == Records(lines)[j];
      LoadIsNumbered(before);
      if last.Rec? {
        assert last.block == Records(lines)[|Records(before)|];
      }
    }
  }

  predicate WrittenIn<P>(keys: Keys<P>, b: Block<P>, original: seq<Block<P>>) {
    exists j | 0 <= j < |original| :: SameRecord(keys, b, original[j])
  }

  /** Even after a run that broke its own file, nothing can be made up from its signatures: every record of an accepted
      log is, up to what is unsigned, one that the run sealed, at its own position, or there is a collision. */
  lemma NothingIsInvented<P(!new)>(keys: Keys<P>, writers: nat, moves: seq<Move<P>>, lines: seq<Line<P>>)
    requires HexDigests(keys) && Manned(moves, writers) && Verify(keys, lines).Valid?
    requires forall i | 0 <= i < |Records(lines)| :: IssuedIn(Records(lines)[i].signature, Issued(keys, writers, moves))
    ensures var log, original := Records(lines), Issued(keys, writers, moves);
            || Collides(keys, log, original)
            || forall i: nat | i < |log| :: log[i].index == At(i) && WrittenIn(keys, log[i], original)
  {
    VerifyAcceptsChains(keys, lines);
    RunIsSealed(keys, writers, moves);
    var log, original := Records(lines), Issued(keys, writers, moves);
    hide Run, Records, Issued, Chain, HexDigests, Verify, SealedBlock, SameRecord, Collides;
    forall i: nat | i < |log|
      ensures log[i].index == At(i) && (WrittenIn(keys, log[i], original) || Collides(keys, log, original))
    {
      assert IssuedIn(log[i].signature, original);
      var j: nat :| j < |original| && original[j].signature == log[i].signature;
      ChainIsSealed(keys, log, i);
      SameSignature(keys, log, i, original, j);
    }
  }

  // ---------------------------------------------------------------- the objects

  class LogFile<P> {
    var content: File<P>

    constructor (content: File<P>)
      ensures this.content == content
    {
      this.content := content;
    }

    /** Append one record; `outcome` is what the file system does. */
    method Write(block: Block<P>, outcome: Write) returns (ok: bool)
      modifies this
      ensures content == Land(old(content), block, outcome) && ok == (outcome == Written)
    {
      if outcome != NothingWritten {
        var lines := content.lines;
        if content.open && lines != [] {
          lines := lines[..|lines| - 1] + [Malformed];
        } else if outcome == Torn {
          lines := lines + [Malformed];
        } else {
          lines := lines + [Rec(block)];
        }
        content := File(lines, outcome == Torn || outcome == Unterminated);
      }
      ok := outcome == Written;
    }
  }

  class TamperEvidentAuditChain<P> {
    const keys: Keys<P>
    const file: LogFile<P>
    var lastHash: string
    var blockCount: int

    /** Opening a chain reads whatever the file already holds. */
    constructor (keys: Keys<P>, file: LogFile<P>)
      ensures this.keys == keys && this.file == file
      ensures View() == StepState(keys, View(), Restart)
    {
      this.keys, this.file := keys, file;
      lastHash, blockCount := Genesis(), 0;
      new;
      InitializeFromExistingLog();
    }

    function View(): State<P>
      reads this, file
    {
      State(file.content, lastHash, blockCount)
    }

    method InitializeFromExistingLog()
      requires lastHash == Genesis() && blockCount == 0
      modifies this
      ensures View() == StepState(keys, old(View()), Restart)
    {
      var lines := file.content.lines;
      var i, stopped := 0, false;
      while i < |lines| && !stopped
        invariant 0 <= i <= |lines|
        invariant Load(lines[..i]) == (lastHash, blockCount, stopped)
      {
        assert lines[..i + 1][..i] == lines[..i];
        match lines[i] {
          case Blank =>
          case Malformed => stopped := true;
          case Rec(b) =>
            lastHash := if b.signature.Some? then b.signature.value else Genesis();
            match b.index {
              case Missing => blockCount := 1;
              case NotNumeric => stopped := true;
              case At(n) => blockCount := n + 1;
            }
        }
        i := i + 1;
      }
      LoadStopped(lines, i);
    }

    method AppendEvent(event: P, stamp: string, outcome: Write) returns (ok: bool)
      modifies this, file
      ensures ok == (outcome == Written)
      ensures View() == StepState(keys, old(View()), Append(event, stamp, outcome))
    {
      var signature := Sign(keys, blockCount, lastHash, event);
      var block := Block(At(blockCount), Some(lastHash), Some(signature), event, stamp);
      ok := file.Write(AsRead(keys, block), outcome);
      if ok {
        lastHash := signature;
        blockCount := blockCount + 1;
      }
    }

    /** The checks made of one record, in order. */
    method CheckBlock(b: Block<P>, expectedPrevious: string, expectedIndex: nat) returns (verdict: Verdict)
      ensures verdict == Check(keys, Some(expectedPrevious), expectedIndex, b)
    {
      if b.index != At(expectedIndex) {
        return Invalid(expectedIndex);
      }
      if b.previous != Some(expectedPrevious) {
        return Invalid(expectedIndex);
      }
      var recalculated := Sign(keys, expectedIndex, b.previous.value, b.payload);
      if b.signature == None || !Ascii(b.signature.value) {
        return Raised(expectedIndex);
      }
      if b.signature.value != recalculated {
        return Invalid(expectedIndex);
      }
      verdict := Valid(expectedIndex + 1);
    }

    method VerifyChain(target: LogFile<P>) returns (verdict: Verdict)
      ensures verdict == Verify(keys, target.content.lines)
    {
      hide Verify, Records, Check;
      var lines := target.content.lines;
      var expectedPrevious, expectedIndex: nat := Genesis(), 0;
      VerifyNothing(keys);
      assert lines[..0] == [];
      for i := 0 to |lines|
        invariant Verify(keys, lines[..i]) == Valid(expectedIndex) && expectedIndex == |Records(lines[..i])|
        invariant Some(expectedPrevious) == Link(Records(lines[..i]), expectedIndex)
      {
        VerifyLine(keys, lines, i);
        match lines[i] {
          case Blank =>
          case Malformed =>
            VerifyStopped(keys, lines, i + 1);
            return Invalid(expectedIndex);
          case Rec(b) =>
            var checked := CheckBlock(b, expectedPrevious, expectedIndex);
            if !checked.Valid? {
              VerifyStopped(keys, lines, i + 1);
              return checked;
            }
            ValidCheck(keys, Some(expectedPrevious), expectedIndex, b);
            expectedPrevious, expectedIndex := b.signature.value, expectedIndex + 1;
        }
      }
      assert lines[..|lines|] == lines;
      verdict := Valid(expectedIndex);
    }
  }

  lemma VerifyNothing<P>(keys: Keys<P>)
    ensures Verify(keys, []) == Valid(0) && Records<P>([]) == []
  {
  }

  lemma ValidCheck<P>(keys: Keys<P>, expected: Option<string>, count: nat, b: Block<P>)
    requires Check(keys, expected, count, b).Valid?
    ensures Check(keys, expected, count, b) == Valid(count + 1) && b.signature.Some?
  {
  }

  /** What the verification of one more line adds to an accepted prefix. */
  lemma {:induction false} VerifyLine<P>(keys: Keys<P>, lines: seq<Line<P>>, i: nat)
    requires i < |lines| && Verify(keys, lines[..i]).Valid?
    ensures var v := Verify(keys, lines[..i]);
            Verify(keys, lines[..i + 1]) == match lines[i]
              case Blank => v
              case Malformed => Invalid(v.count)
              case Rec(b) => Check(keys, Link(Records(lines[..i]), v.count), v.count, b)
    ensures Records(lines[..i + 1]) == if lines[i].Rec? then Records(lines[..i]) + [lines[i].block]
            else Records(lines[..i])
  {
    hide Check;
    assert lines[..i + 1][..i] == lines[..i];
  }

  /** Once verification has stopped, later lines do not matter. */
  lemma {:induction false} VerifyStopped<P>(keys: Keys<P>, lines: seq<Line<P>>, n: nat)
    requires n <= |lines| && !Verify(keys, lines[..n]).Valid?
    ensures Verify(keys, lines) == Verify(keys, lines[..n])
  {
    if n == |lines| {
      assert lines[..n] == lines;
    } else {
      assert lines[..|lines| - 1][..n] == lines[..n];
      VerifyStopped(keys, lines[..|lines| - 1], n);
    }
  }

  /** Once loading has stopped, later lines do not matter. */
  lemma {:induction false} LoadStopped<P>(lines: seq<Line<P>>, n: nat)
    requires n <= |lines| && (n < |lines| ==> Load(lines[..n]).2)
    ensures Load(lines) == Load(lines[..n])
  {
    if n == |lines| {
      assert lines[..n] == lines;
    } else {
      assert lines[..|lines| - 1][..n] == lines[..n];
      LoadStopped(lines[..|lines| - 1], n);
    }
  }
}
