/** The hash-chained audit log: appending, verifying, and what a head hash pins down. */
module AuditChains {
  import opened Results
  import opened DecimalText
  import opened CanonicalText

  /** The digest of a text, in hexadecimal; a parameter of everything here. */
  type Digest = string -> string

  datatype AuditInput = AuditInput(at: int, action: string, detail: string, actor: Option<string>,
                                   correlationId: Option<string>)

  datatype ChainedEntry = ChainedEntry(input: AuditInput, seqNo: int, prevHash: string, hash: string)

  datatype BreakReason = SequenceGap | LinkageBroken | ContentModified

  datatype VerifyResult = Valid(head: string, length: nat) | Broken(brokenAt: nat, reason: BreakReason)

  const GENESIS: string := Zeros(64)

  function Content(e: ChainedEntry): AuditContent {
    AuditContent(e.seqNo, e.input.at, e.input.action, e.input.detail, e.input.actor, e.input.correlationId)
  }

  /** One digest over the previous hash and the canonical text, one after the other. */
  function HashEntry(sha: Digest, prevHash: string, content: AuditContent): string {
    sha(prevHash + Canonicalise(content))
  }

  function Head(entries: seq<ChainedEntry>): string {
    if entries == [] then GENESIS else entries[|entries| - 1].hash
  }

  function Chained(sha: Digest, entries: seq<ChainedEntry>, input: AuditInput): ChainedEntry {
    var e := ChainedEntry(input, |entries|, Head(entries), "");
    e.(hash := HashEntry(sha, Head(entries), Content(e)))
  }

  // ------------------------------------------------------------- verifying

  /** An entry commits to its position, its predecessor and its own content. */
  predicate Fits(sha: Digest, entries: seq<ChainedEntry>, i: nat)
    requires i < |entries|
  {
    && entries[i].seqNo == i
    && entries[i].prevHash == Head(entries[..i])
    && entries[i].hash == HashEntry(sha, Head(entries[..i]), Content(entries[i]))
  }

  predicate ValidChain(sha: Digest, entries: seq<ChainedEntry>) {
    forall i :: 0 <= i < |entries| ==> Fits(sha, entries, i)
  }

  /** What is wrong with an entry whose chain holds up to it: its number, else its link, else its content. */
  predicate FailsFor(sha: Digest, entries: seq<ChainedEntry>, i: nat, reason: BreakReason)
    requires i < |entries|
  {
    var head := if i == 0 then GENESIS else entries[i - 1].hash;
    match reason
    case SequenceGap => entries[i].seqNo != i
    case LinkageBroken => entries[i].seqNo == i && entries[i].prevHash != head
    case ContentModified =>
      && entries[i].seqNo == i && entries[i].prevHash == head
      && entries[i].hash != sha(head + Canonicalise(Content(entries[i])))
  }

  /** Valid exactly for valid chains; otherwise the least failing index and what failed there. */
  method VerifyChain(sha: Digest, entries: seq<ChainedEntry>) returns (r: VerifyResult)
    ensures r.Valid? <==> ValidChain(sha, entries)
    ensures r.Valid? ==> r == Valid(Head(entries), |entries|)
    ensures r.Broken? ==>
              && r.brokenAt < |entries| && !Fits(sha, entries, r.brokenAt)
              && ValidChain(sha, entries[..r.brokenAt]) && FailsFor(sha, entries, r.brokenAt, r.reason)
  {
    hide Canonicalise;
    var prevHash := GENESIS;
    for i := 0 to |entries|
      invariant prevHash == Head(entries[..i])
      invariant forall j :: 0 <= j < i ==> Fits(sha, entries, j)
    {
      PrefixFits(sha, entries, i);
      HeadBefore(entries, i);
      var entry := entries[i];
      assert Fits(sha, entries, i) <==>
             entry.seqNo == i && entry.prevHash == prevHash && entry.hash == HashEntry(sha, prevHash, Content(entry));
      if entry.seqNo != i { return Broken(i, SequenceGap); }
      if entry.prevHash != prevHash { return Broken(i, LinkageBroken); }
      var expected := HashEntry(sha, prevHash, Content(entry));
      if entry.hash != expected { return Broken(i, ContentModified); }
      prevHash := entry.hash;
      assert entries[..i + 1][|entries[..i + 1]| - 1] == entries[i];
    }
    assert entries[..|entries|] == entries;
    r := Valid(prevHash, |entries|);
  }

  lemma HeadBefore(entries: seq<ChainedEntry>, i: nat)
    requires i <= |entries|
    ensures Head(entries[..i]) == if i == 0 then GENESIS else entries[i - 1].hash
  {
    if i > 0 { assert entries[..i][|entries[..i]| - 1] == entries[i - 1]; }
  }

  lemma PrefixFits(sha: Digest, entries: seq<ChainedEntry>, n: nat)
    requires n <= |entries| && forall j :: 0 <= j < n ==> Fits(sha, entries, j)
    ensures ValidChain(sha, entries[..n])
  {
    hide HashEntry;
    forall j | 0 <= j < n
      ensures Fits(sha, entries[..n], j)
    {
      assert Fits(sha, entries, j);
      assert entries[..n][..j] == entries[..j];
    }
  }

  class AuditChain {
    const sha: Digest
    var entries: seq<ChainedEntry>

    constructor (sha: Digest, seed: seq<ChainedEntry>)
      ensures this.sha == sha && entries == seed
    {
      this.sha := sha;
      entries := seed;
    }

    method Append(input: AuditInput) returns (entry: ChainedEntry)
      modifies this
      ensures entries == old(entries) + [entry]
      ensures entry == Chained(sha, old(entries), input)
      ensures ValidChain(sha, old(entries)) <==> ValidChain(sha, entries)
    {
      var prevHash := Head(entries);
      var unhashed := ChainedEntry(input, |entries|, prevHash, "");
      entry := unhashed.(hash := HashEntry(sha, prevHash, Content(unhashed)));
      AppendKeepsValid(sha, entries, input);
      entries := entries + [entry];
    }

    method Verify() returns (r: VerifyResult)
      ensures r.Valid? <==> ValidChain(sha, entries)
      ensures r.Valid? ==> r == Valid(Head(entries), |entries|)
      ensures r.Broken? ==>
                && r.brokenAt < |entries| && !Fits(sha, entries, r.brokenAt)
                && ValidChain(sha, entries[..r.brokenAt]) && FailsFor(sha, entries, r.brokenAt, r.reason)
    {
      r := VerifyChain(sha, entries);
    }
  }

  /** Appending keeps a valid chain valid, and never repairs a broken one. */
  lemma AppendKeepsValid(sha: Digest, entries: seq<ChainedEntry>, input: AuditInput)
    ensures ValidChain(sha, entries) <==> ValidChain(sha, entries + [Chained(sha, entries, input)])
  {
    var n, all := |entries|, entries + [Chained(sha, entries, input)];
    assert all[..n] == entries;
    assert Fits(sha, all, n);
    if ValidChain(sha, all) { PrefixFits(sha, all, n); }
    if ValidChain(sha, entries) {
      forall i | 0 <= i < n
        ensures Fits(sha, all, i)
      {
        assert Fits(sha, entries, i);
        assert all[..i] == entries[..i];
      }
    }
  }

  /** Concretely: the first entry of a chain digests 64 zeros and then its own fields, in this order. */
  lemma FirstEntryExample(sha: Digest)
    ensures var entry := Chained(sha, [], AuditInput(5, "a", "\U{0001}", None, Some("c")));
            && entry.seqNo == 0 && entry.prevHash == GENESIS
            && entry.hash == sha(GENESIS + "[0,5,\"a\",\"\\u0001\",null,\"c\"]")
  {
    OneCharacter('a');
    OneCharacter('c');
    OneCharacter('\U{0001}');
    assert JsonInt(0) == "0" && JsonInt(5) == "5" && JsonNullable(None) == "null";
    assert JsonNullable(Some("c")) == JsonString("c") == "\"" + ['c'] + "\"";
    hide JsonInt, JsonString, JsonNullable, EscapeChar, Escape;
    JoinedExample(Canonicalise(AuditContent(0, 5, "a", "\U{0001}", None, Some("c"))));
  }

  lemma OneCharacter(ch: char)
    ensures JsonString([ch]) == "\"" + EscapeChar(ch) + "\""
  {
    assert [ch][1..] == "" && Escape([ch]) == EscapeChar(ch) + Escape("");
    assert Escape([ch]) == EscapeChar(ch);
  }

  lemma JoinedExample(text: string)
    requires text == "[" + ("0" + "," + ("5" + "," + ("\"" + ['a'] + "\"" + "," + ("\"" + "\\u0001" + "\"" + ","
                     + ("null" + "," + ("\"" + ['c'] + "\"" + "]"))))))
    ensures text == "[0,5,\"a\",\"\\u0001\",null,\"c\"]"
  {}

  // ---------------------------------------------------- what a head pins down

  /** The text that is digested for an entry where it stands. */
  function Preimage(entries: seq<ChainedEntry>, i: nat): string
    requires i < |entries|
  {
    Head(entries[..i]) + Canonicalise(Content(entries[i]))
  }

  function Texts(entries: seq<ChainedEntry>): set<string> {
    set i | 0 <= i < |entries| :: Preimage(entries, i)
  }

  /** On these texts the digest has no collision, never gives the genesis value, and gives no bracket,
      as hexadecimal digits do not. */
  ghost predicate SoundOn(sha: Digest, texts: set<string>) {
    && (forall x, y :: x in texts && y in texts && sha(x) == sha(y) ==> x == y)
    && (forall x :: x in texts ==> sha(x) != GENESIS && '[' !in sha(x))
  }

  lemma TextsOfPrefix(entries: seq<ChainedEntry>, n: nat)
    requires n <= |entries|
    ensures Texts(entries[..n]) <= Texts(entries)
    ensures forall i :: 0 <= i < |entries| ==> Preimage(entries, i) in Texts(entries)
  {
    hide Preimage;
    forall i | 0 <= i < n ensures Preimage(entries[..n], i) == Preimage(entries, i) {
      PreimageInPrefix(entries, n, i);
    }
  }

  lemma PreimageInPrefix(entries: seq<ChainedEntry>, n: nat, i: nat)
    requires i < n <= |entries|
    ensures Preimage(entries[..n], i) == Preimage(entries, i)
  {
    assert entries[..n][..i] == entries[..i];
  }

  /** The head of a valid chain holds no bracket, and is the genesis value only of the empty chain. */
  lemma HeadsArePlain(sha: Digest, a: seq<ChainedEntry>, texts: set<string>)
    requires SoundOn(sha, texts) && Texts(a) <= texts && ValidChain(sha, a)
    ensures '[' !in Head(a) && (Head(a) == GENESIS <==> a == [])
  {
    if a != [] {
      var n := |a| - 1;
      TextsOfPrefix(a, n);
      assert Fits(sha, a, n) && Preimage(a, n) in texts;
    }
  }

  lemma SamePreimage(sha: Digest, a: seq<ChainedEntry>, i: nat, b: seq<ChainedEntry>, j: nat, texts: set<string>)
    requires SoundOn(sha, texts) && i < |a| && j < |b| && Preimage(a, i) in texts && Preimage(b, j) in texts
    requires '[' !in Head(a[..i]) && '[' !in Head(b[..j])
    requires sha(Preimage(a, i)) == sha(Preimage(b, j))
    ensures Head(a[..i]) == Head(b[..j]) && Content(a[i]) == Content(b[j])
  {
    PrefixedTextIsReadBack(Head(a[..i]), Head(b[..j]), Content(a[i]), Content(b[j]));
  }

  lemma SameLastEntry(sha: Digest, a: seq<ChainedEntry>, b: seq<ChainedEntry>, texts: set<string>)
    requires SoundOn(sha, texts) && Texts(a) <= texts && Texts(b) <= texts
    requires ValidChain(sha, a) && ValidChain(sha, b) && a != [] && b != [] && Head(a) == Head(b)
    ensures Head(a[..|a| - 1]) == Head(b[..|b| - 1]) && a[|a| - 1] == b[|b| - 1]
  {
    var n, m := |a| - 1, |b| - 1;
    assert Fits(sha, a, n) && Fits(sha, b, m);
    TextsOfPrefix(a, n);
    TextsOfPrefix(b, m);
    PrefixFits(sha, a, n);
    PrefixFits(sha, b, m);
    HeadsArePlain(sha, a[..n], texts);
    HeadsArePlain(sha, b[..m], texts);
    hide SoundOn, Texts, Canonicalise;
    SamePreimage(sha, a, n, b, m, texts);
  }

  lemma {:induction false} SameHeadWithin(sha: Digest, a: seq<ChainedEntry>, b: seq<ChainedEntry>, texts: set<string>)
    requires SoundOn(sha, texts) && Texts(a) <= texts && Texts(b) <= texts
    requires ValidChain(sha, a) && ValidChain(sha, b) && Head(a) == Head(b)
    ensures a == b
  {
    HeadsArePlain(sha, a, texts);
    HeadsArePlain(sha, b, texts);
    hide SoundOn, Texts, Fits;
    if a != [] && b != [] {
      var n, m := |a| - 1, |b| - 1;
      SameLastEntry(sha, a, b, texts);
      TextsOfPrefix(a, n);
      TextsOfPrefix(b, m);
      PrefixFits(sha, a, n);
      PrefixFits(sha, b, m);
      SameHeadWithin(sha, a[..n], b[..m], texts);
      assert a == a[..n] + [a[n]] && b == b[..m] + [b[m]];
    }
  }

  /** Two valid chains with the same head are the same chain, entry for entry, unless the digest
      collides on the very texts the two chains hash. */
  lemma SameHeadSameChain(sha: Digest, a: seq<ChainedEntry>, b: seq<ChainedEntry>)
    requires SoundOn(sha, Texts(a) + Texts(b)) && ValidChain(sha, a) && ValidChain(sha, b) && Head(a) == Head(b)
    ensures a == b
  {
    SameHeadWithin(sha, a, b, Texts(a) + Texts(b));
  }

  /** Once two valid chains part, no later head of one is ever a head of the other. */
  lemma PartedChainsNeverRejoin(sha: Digest, a: seq<ChainedEntry>, b: seq<ChainedEntry>, i: nat, j: nat, k: nat)
    requires SoundOn(sha, Texts(a) + Texts(b)) && ValidChain(sha, a) && ValidChain(sha, b)
    requires i < j <= |a| && i < k <= |b| && a[i] != b[i]
    ensures Head(a[..j]) != Head(b[..k])
  {
    PrefixFits(sha, a, j);
    PrefixFits(sha, b, k);
    TextsOfPrefix(a, j);
    TextsOfPrefix(b, k);
    assert a[..j][i] == a[i] && b[..k][i] == b[i];
    if Head(a[..j]) == Head(b[..k]) { SameHeadWithin(sha, a[..j], b[..k], Texts(a) + Texts(b)); }
  }

  // ------------------------------------------------------ a digest like that

  /** A code without brackets: each character in unary, and a comma. */
  function Unary(s: string): (code: string)
    ensures code == [] <==> s == []
  {
    if s == [] then [] else Zeros(s[0] as int) + ("," + Unary(s[1..]))
  }

  lemma {:induction false} UnaryIsInjective(x: string, y: string)
    requires Unary(x) == Unary(y)
    ensures x == y
  {
    if x != [] && y != [] {
      SplitAtFirst(',', Zeros(x[0] as int), Zeros(y[0] as int), Unary(x[1..]), Unary(y[1..]));
      UnaryIsInjective(x[1..], y[1..]);
      assert x == [x[0]] + x[1..] && y == [y[0]] + y[1..];
    }
  }

  lemma {:induction false} UnaryIsPlain(x: string)
    ensures '[' !in Unary(x) && Unary(x) != GENESIS
  {
    if x != [] {
      UnaryIsPlain(x[1..]);
      assert Unary(x)[|Zeros(x[0] as int)|] == ',';
    }
  }

  /** What is asked of the digest can be met, and on all texts at once. */
  lemma UnaryIsSound(texts: set<string>)
    ensures SoundOn(Unary, texts)
  {
    forall x, y | x in texts && y in texts && Unary(x) == Unary(y) ensures x == y { UnaryIsInjective(x, y); }
    forall x | x in texts ensures Unary(x) != GENESIS && '[' !in Unary(x) { UnaryIsPlain(x); }
  }

  // ------------------------------------------------------------- tampering

  /** The index where checking breaks is determined: a valid beginning, then an entry that does not fit. */
  predicate BreaksAt(sha: Digest, entries: seq<ChainedEntry>, i: nat) {
    i < |entries| && !Fits(sha, entries, i) && forall j :: 0 <= j < i ==> Fits(sha, entries, j)
  }

  lemma SamePrefixFits(sha: Digest, a: seq<ChainedEntry>, b: seq<ChainedEntry>, i: nat)
    requires ValidChain(sha, a) && i <= |a| && i <= |b| && a[..i] == b[..i]
    ensures forall j :: 0 <= j < i ==> Fits(sha, b, j)
  {
    forall j | 0 <= j < i
      ensures Fits(sha, b, j)
    {
      assert Fits(sha, a, j);
      assert b[..j] == b[..i][..j] == a[..i][..j] == a[..j];
      assert b[j] == b[..i][j] == a[..i][j] == a[j];
    }
  }

  /** An entry of a valid chain that keeps its hash keeps its content. */
  lemma HashPinsContent(sha: Digest, a: seq<ChainedEntry>, b: seq<ChainedEntry>, i: nat)
    requires SoundOn(sha, Texts(a) + Texts(b)) && ValidChain(sha, a) && i < |a| && i < |b| && a[..i] == b[..i]
    requires sha(Preimage(a, i)) == sha(Preimage(b, i))
    ensures Content(a[i]) == Content(b[i])
  {
    var texts := Texts(a) + Texts(b);
    TextsOfPrefix(a, i);
    TextsOfPrefix(b, i);
    PrefixFits(sha, a, i);
    HeadsArePlain(sha, a[..i], texts);
    hide SoundOn, Texts, Preimage;
    SamePreimage(sha, a, i, b, i, texts);
  }

  /** Rewriting the content of one entry, its hash left as it was, breaks the chain exactly there. */
  lemma EditIsLocated(sha: Digest, a: seq<ChainedEntry>, i: nat, input: AuditInput)
    requires ValidChain(sha, a) && i < |a| && input != a[i].input
    requires SoundOn(sha, Texts(a) + Texts(a[i := a[i].(input := input)]))
    ensures BreaksAt(sha, a[i := a[i].(input := input)], i)
  {
    var b := a[i := a[i].(input := input)];
    assert a[..i] == b[..i];
    SamePrefixFits(sha, a, b, i);
    assert Fits(sha, a, i);
    if Fits(sha, b, i) { HashPinsContent(sha, a, b, i); }
  }

  /** Recomputing the edited entry's hash only moves the break to the next entry: unless the edited
      entry is the last, the chain is still refused, and in any case the head changes. */
  lemma RehashedEditIsLocated(sha: Digest, a: seq<ChainedEntry>, i: nat, input: AuditInput)
    requires ValidChain(sha, a) && i < |a| && input != a[i].input
    requires SoundOn(sha, Texts(a) + Texts(a[i := Chained(sha, a[..i], input)]))
    ensures var b := a[i := Chained(sha, a[..i], input)];
            if i + 1 < |a| then BreaksAt(sha, b, i + 1) else ValidChain(sha, b) && Head(b) != Head(a)
  {
    RehashedDiffers(sha, a, i, input);
    hide Canonicalise, SoundOn, Texts;
    var e := Chained(sha, a[..i], input);
    var b := a[i := e];
    assert b[..i] == a[..i];
    SamePrefixFits(sha, a, b, i);
    if i + 1 < |a| {
      assert Fits(sha, a, i + 1);
      assert Head(a[..i + 1]) == a[i].hash && Head(b[..i + 1]) == e.hash;
    }
  }

  lemma RehashedDiffers(sha: Digest, a: seq<ChainedEntry>, i: nat, input: AuditInput)
    requires ValidChain(sha, a) && i < |a| && input != a[i].input
    requires SoundOn(sha, Texts(a) + Texts(a[i := Chained(sha, a[..i], input)]))
    ensures var e := Chained(sha, a[..i], input);
            e.hash != a[i].hash && Fits(sha, a[i := e], i)
  {
    hide Canonicalise, SoundOn, Texts;
    var b := a[i := Chained(sha, a[..i], input)];
    assert b[..i] == a[..i];
    assert Fits(sha, b, i) && Fits(sha, a, i);
    if b[i].hash == a[i].hash { HashPinsContent(sha, a, b, i); }
  }

  /** Removing an entry is located at its own index, unless it was the last one: a truncated chain is
      valid, and only the head tells. */
  lemma RemovalIsLocated(sha: Digest, a: seq<ChainedEntry>, i: nat)
    requires SoundOn(sha, Texts(a)) && ValidChain(sha, a) && i < |a|
    ensures var b := a[..i] + a[i + 1..];
            if i + 1 < |a| then BreaksAt(sha, b, i) else ValidChain(sha, b) && Head(b) != Head(a)
  {
    var b := a[..i] + a[i + 1..];
    assert b[..i] == a[..i];
    SamePrefixFits(sha, a, b, i);
    if i + 1 < |a| {
      assert Fits(sha, a, i + 1);
      assert b[i] == a[i + 1];
    } else {
      assert b == a[..i];
      PrefixFits(sha, a, i);
      TextsOfPrefix(a, i);
      if Head(b) == Head(a) { SameHeadWithin(sha, a, b, Texts(a)); }
    }
  }

  /** Swapping two entries is located at the earlier of them. */
  lemma SwapIsLocated(sha: Digest, a: seq<ChainedEntry>, i: nat, j: nat)
    requires ValidChain(sha, a) && i < j < |a|
    ensures BreaksAt(sha, a[i := a[j]][j := a[i]], i)
  {
    var b := a[i := a[j]][j := a[i]];
    assert b[..i] == a[..i];
    SamePrefixFits(sha, a, b, i);
    assert Fits(sha, a, j);
  }
}
