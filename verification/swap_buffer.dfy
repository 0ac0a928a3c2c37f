/** The AgentSwapBuffer entity: the ring stored as four delimited strings. */
module SwapBuffer {
  import opened Text
  import opened SwapRing

  // ----- printing and parsing entries --------------------------------------

  /** `createSwapDataString`. */
  function EntryText(s: Swap): string {
    NatText(s.timestamp) + "," + HexText(s.id) + "," + DecimalText(s.slippage) + "," + NatText(s.expiresAt) + ","
        + HexText(s.id)
  }

  function Fields(s: Swap): seq<string> {
    [NatText(s.timestamp), HexText(s.id), DecimalText(s.slippage), NatText(s.expiresAt), HexText(s.id)]
  }

  lemma JoinFive(a: string, b: string, c: string, d: string, e: string)
    ensures Join([a, b, c, d, e], ',') == a + "," + b + "," + c + "," + d + "," + e
  {
    JoinAppend([a, b, c, d], e, ',');
    JoinAppend([a, b, c], d, ',');
    JoinAppend([a, b], c, ',');
    JoinAppend([a], b, ',');
    assert [a] + [b] == [a, b] && [a, b] + [c] == [a, b, c];
    assert [a, b, c] + [d] == [a, b, c, d] && [a, b, c, d] + [e] == [a, b, c, d, e];
  }

  lemma EntryIsJoin(s: Swap)
    ensures EntryText(s) == Join(Fields(s), ',')
  {
    JoinFive(NatText(s.timestamp), HexText(s.id), DecimalText(s.slippage), NatText(s.expiresAt), HexText(s.id));
  }

  lemma FieldsLack(s: Swap, sep: char)
    requires sep == ',' || sep == '|'
    ensures forall p :: p in Fields(s) ==> Lacks(p, sep)
  {
    DigitsLack(NatText(s.timestamp), sep);
    DigitsLack(NatText(s.expiresAt), sep);
    HexLacks(s.id, sep);
    DecimalLacks(s.slippage, sep);
  }

  /** Splitting a printed entry at commas gives the five fields written. */
  lemma EntryFields(s: Swap)
    ensures Split(EntryText(s), ',') == Fields(s)
    ensures Fields(s) == [NatText(s.timestamp), HexText(s.id), DecimalText(s.slippage), NatText(s.expiresAt),
                          HexText(s.id)]
  {
    EntryIsJoin(s);
    FieldsLack(s, ',');
    SplitJoin(Fields(s), ',');
  }

  lemma EntryShape(s: Swap)
    ensures EntryText(s) != "" && Lacks(EntryText(s), '|')
  {
    FieldsLack(s, '|');
    assert forall p :: p in Fields(s) ==> Lacks(p, '|');
    assert Fields(s)[0] in Fields(s) && Fields(s)[1] in Fields(s) && Fields(s)[2] in Fields(s)
        && Fields(s)[3] in Fields(s);
  }

  function Entries(b: seq<Swap>): (r: seq<string>)
    ensures |r| == |b|
  {
    if b == [] then [] else Entries(b[..|b| - 1]) + [EntryText(b[|b| - 1])]
  }

  /** The stored form of a bucket. */
  function Render(b: seq<Swap>): string {
    Join(Entries(b), '|')
  }

  lemma {:induction false} EntriesShape(b: seq<Swap>)
    ensures forall e :: e in Entries(b) ==> e != "" && Lacks(e, '|')
  {
    if b != [] {
      EntriesShape(b[..|b| - 1]);
      EntryShape(b[|b| - 1]);
    }
  }

  /** Splitting a stored bucket gives back exactly the entries written. */
  lemma RenderRoundTrip(b: seq<Swap>)
    requires b != []
    ensures Split(Render(b), '|') == Entries(b)
  {
    EntriesShape(b);
    SplitJoin(Entries(b), '|');
  }

  lemma RenderEmpty(b: seq<Swap>)
    ensures Render(b) == "" <==> b == []
  {
    EntriesShape(b);
    JoinEmpty(Entries(b), '|');
  }

  lemma RenderAppend(b: seq<Swap>, s: Swap)
    ensures Render(b + [s]) == if b == [] then EntryText(s) else Render(b) + "|" + EntryText(s)
  {
    assert (b + [s])[..|b|] == b;
    if b != [] {
      JoinAppend(Entries(b), EntryText(s), '|');
    }
  }

  // ----- what the loops compute, on any text -------------------------------

  function EntrySlippage(entry: string): real {
    var parts := Split(entry, ',');
    if entry != "" && |parts| >= 3 then Value(ParseDecimal(parts[2])) else 0.0
  }

  function EntriesTotal(entries: seq<string>): real {
    if entries == [] then 0.0 else EntriesTotal(entries[..|entries| - 1]) + EntrySlippage(entries[|entries| - 1])
  }

  predicate Complete(entry: string) {
    entry != "" && |Split(entry, ',')| >= 4
  }

  predicate Matches(entry: string, now: nat) {
    var parts := Split(entry, ',');
    Complete(entry) && now - ParseNat(parts[0]) <= ASSOCIATION_WINDOW && now <= ParseNat(parts[3])
  }

  function Matching(entries: seq<string>, now: nat): seq<string> {
    if entries == [] then []
    else
      var e := entries[|entries| - 1];
      Matching(entries[..|entries| - 1], now) + (if Matches(e, now) then [e] else [])
  }

  function Remaining(entries: seq<string>, now: nat): seq<string> {
    if entries == [] then []
    else
      var e := entries[|entries| - 1];
      Remaining(entries[..|entries| - 1], now) + (if Complete(e) && !Matches(e, now) then [e] else [])
  }

  function EntryIds(entries: seq<string>): set<Id> {
    if entries == [] then {}
    else
      var parts := Split(entries[|entries| - 1], ',');
      EntryIds(entries[..|entries| - 1]) + (if |parts| >= 5 then {ParseHex(parts[4])} else {})
  }

  lemma EntryReads(s: Swap, now: nat)
    ensures EntrySlippage(EntryText(s)) == Value(s.slippage)
    ensures Complete(EntryText(s)) && (Matches(EntryText(s), now) <==> InWindow(s, now))
    ensures |Split(EntryText(s), ',')| == 5 && ParseHex(Split(EntryText(s), ',')[4]) == s.id
  {
    EntryFields(s);
    EntryShape(s);
    DecimalRoundTrip(s.slippage);
    NatRoundTrip(s.timestamp);
    NatRoundTrip(s.expiresAt);
    HexRoundTrip(s.id);
  }

  /** The parsed total of a stored bucket is the sum of its swaps' slippages. */
  lemma {:induction false} ParsedTotal(b: seq<Swap>)
    ensures EntriesTotal(Entries(b)) == Slippage(b)
  {
    if b != [] {
      var n := |b| - 1;
      ParsedTotal(b[..n]);
      EntryReads(b[n], 0);
      assert Entries(b)[..n] == Entries(b[..n]);
    }
  }

  lemma EntriesAppend(b: seq<Swap>, s: Swap)
    ensures Entries(b + [s]) == Entries(b) + [EntryText(s)]
  {
    assert (b + [s])[..|b|] == b;
  }

  lemma MatchingAppend(entries: seq<string>, e: string, now: nat)
    ensures Matching(entries + [e], now) == Matching(entries, now) + (if Matches(e, now) then [e] else [])
    ensures Remaining(entries + [e], now) == Remaining(entries, now)
        + (if Complete(e) && !Matches(e, now) then [e] else [])
  {
    assert (entries + [e])[..|entries|] == entries;
  }

  /** The textual filter splits a stored bucket exactly as the window splits its swaps. */
  lemma {:induction false} FilteredEntries(b: seq<Swap>, now: nat)
    ensures Matching(Entries(b), now) == Entries(Taken(b, now))
    ensures Remaining(Entries(b), now) == Entries(Left(b, now))
  {
    if b != [] {
      var init, s := b[..|b| - 1], b[|b| - 1];
      FilteredEntries(init, now);
      EntryReads(s, now);
      MatchingAppend(Entries(init), EntryText(s), now);
      if InWindow(s, now) {
        EntriesAppend(Taken(init, now), s);
        assert Left(b, now) == Left(init, now);
      } else {
        EntriesAppend(Left(init, now), s);
        assert Taken(b, now) == Taken(init, now);
      }
    }
  }

  lemma EntryIdsAppend(entries: seq<string>, e: string)
    ensures EntryIds(entries + [e]) == EntryIds(entries)
        + (if |Split(e, ',')| >= 5 then {ParseHex(Split(e, ',')[4])} else {})
  {
    assert (entries + [e])[..|entries|] == entries;
  }

  lemma EntryIdsOfSwap(entries: seq<string>, s: Swap)
    ensures EntryIds(entries + [EntryText(s)]) == EntryIds(entries) + {s.id}
  {
    EntryReads(s, 0);
    EntryIdsAppend(entries, EntryText(s));
  }

  lemma EntryIdsStep(b: seq<Swap>)
    requires b != []
    ensures EntryIds(Entries(b)) == EntryIds(Entries(b[..|b| - 1])) + {b[|b| - 1].id}
  {
    EntryIdsOfSwap(Entries(b[..|b| - 1]), b[|b| - 1]);
  }

  lemma {:induction false} RenderedIds(b: seq<Swap>)
    ensures EntryIds(Entries(b)) == Ids(b)
  {
    if b != [] {
      RenderedIds(b[..|b| - 1]);
      EntryIdsStep(b);
    }
  }

  /** What the parsers read off a stored bucket that is not empty. */
  lemma BucketReads(b: seq<Swap>)
    requires b != []
    ensures Render(b) != "" && Render(b) != "[]" && Split(Render(b), '|') == Entries(b)
    ensures EntriesTotal(Entries(b)) == Slippage(b) && EntryIds(Entries(b)) == Ids(b)
  {
    RenderRoundTrip(b);
    RenderEmpty(b);
    ParsedTotal(b);
    RenderedIds(b);
    BracketsAreNoBucket(b);
  }

  // ----- the loops ---------------------------------------------------------

  method ParseTotalSlippageFromBucket(bucket: string) returns (total: real)
    ensures total == if bucket == "[]" || bucket == "" then 0.0 else EntriesTotal(Split(bucket, '|'))
  {
    if bucket == "[]" || bucket == "" {
      return 0.0;
    }
    total := 0.0;
    var entries := Split(bucket, '|');
    for i := 0 to |entries|
      invariant total == EntriesTotal(entries[..i])
    {
      assert entries[..i + 1][..i] == entries[..i];
      var entry := entries[i];
      if entry == "" {
        continue;
      }
      var parts := Split(entry, ',');
      if |parts| >= 3 {
        total := total + Value(ParseDecimal(parts[2]));
      }
    }
    assert entries[..|entries|] == entries;
  }

  /** The inner loop of `associateSwapsWithPosition`. */
  method SplitByWindow(entries: seq<string>, now: nat) returns (associated: seq<string>, remaining: seq<string>)
    ensures associated == Matching(entries, now) && remaining == Remaining(entries, now)
  {
    associated, remaining := [], [];
    for i := 0 to |entries|
      invariant associated == Matching(entries[..i], now) && remaining == Remaining(entries[..i], now)
    {
      assert entries[..i + 1][..i] == entries[..i];
      var entry := entries[i];
      if entry == "" {
        continue;
      }
      var parts := Split(entry, ',');
      if |parts| >= 4 {
        if now - ParseNat(parts[0]) <= ASSOCIATION_WINDOW && now <= ParseNat(parts[3]) {
          associated := associated + [entry];
        } else {
          remaining := remaining + [entry];
        }
      }
    }
    assert entries[..|entries|] == entries;
  }

  // ----- the entity --------------------------------------------------------

  datatype Buffer = Buffer(bucket0Swaps: string, bucket1Swaps: string, bucket2Swaps: string, bucket3Swaps: string,
                           currentBucketIndex: nat)

  function Stored(r: Ring): Buffer {
    Buffer(Render(r.bucket0), Render(r.bucket1), Render(r.bucket2), Render(r.bucket3), r.current)
  }

  /** Swaps of the table whose ids are listed become associated. */
  function Mark(m: map<Id, bool>, ids: set<Id>): map<Id, bool> {
    map id | id in m :: m[id] || id in ids
  }

  lemma MarkTwice(m: map<Id, bool>, ids: set<Id>, more: set<Id>)
    ensures Mark(Mark(m, ids), more) == Mark(m, ids + more)
  {
  }

  /** The isAssociated fields after a run: a new swap is not associated, an association marks what it takes. */
  function Flags(es: seq<Event>): map<Id, bool> {
    if es == [] then map[]
    else
      var init, e := es[..|es| - 1], es[|es| - 1];
      match e
      case SwapMade(_, id, _) => Flags(init)[id := false]
      case PositionOpened(now) =>
        if Run(init).Some? then Mark(Flags(init), TakenIds(Run(init).value, now)) else Flags(init)
  }

  lemma {:induction false} FlagsAreFlagged(es: seq<Event>, i: nat)
    requires DistinctIds(es) && i < |es| && es[i].SwapMade?
    ensures es[i].id in Flags(es) && (Flags(es)[es[i].id] <==> es[i].id in Flagged(es))
    decreases |es|
  {
    var init, n := es[..|es| - 1], |es| - 1;
    if i < n {
      assert init[i] == es[i];
      FlagsAreFlagged(init, i);
    } else {
      NeverMadeNeverFlagged(init, es[i].id);
    }
  }

  /** The stored isAssociated field of a swap is true exactly when its fate is to be charged. */
  lemma FlagIffCharged(es: seq<Event>, i: nat)
    requires DistinctIds(es) && i < |es| && es[i].SwapMade?
    ensures es[i].id in Flags(es) && (Flags(es)[es[i].id] <==> FateOf(es, i).Charged?)
  {
    FlagsAreFlagged(es, i);
    FlaggedIffCharged(es, i);
  }

  /** Every stored buffer is the printed form of a ring. */
  ghost predicate Agree(buffers: map<nat, Buffer>, rings: map<nat, Ring>) {
    buffers.Keys == rings.Keys && forall a :: a in rings ==> buffers[a] == Stored(rings[a])
  }

  lemma AgreeUpdate(buffers: map<nat, Buffer>, rings: map<nat, Ring>, agent: nat, r: Ring)
    requires Agree(buffers, rings)
    ensures Agree(buffers[agent := Stored(r)], rings[agent := r])
  {
  }

  class SwapStore {
    var buffers: map<nat, Buffer>
    /** SwapTransaction.isAssociated by swap id. */
    var associated: map<Id, bool>
    ghost var rings: map<nat, Ring>

    ghost predicate Valid()
      reads this
    {
      Agree(buffers, rings)
    }

    constructor ()
      ensures Valid() && rings == map[] && associated == map[]
    {
      buffers, associated, rings := map[], map[], map[];
    }

    /** The save of the SwapTransaction and `addSwapToBuffer`. */
    method AddSwap(agent: nat, s: Swap)
      requires Valid()
      modifies this
      ensures Valid() && associated == old(associated)[s.id := false]
      ensures rings == old(rings)[agent := Add(if agent in old(rings) then old(rings)[agent]
          else FreshRing(s.timestamp), s)]
    {
      associated := associated[s.id := false];
      ghost var r := if agent in rings then rings[agent] else FreshRing(s.timestamp);
      var buffer := if agent in buffers then buffers[agent] else Buffer("", "", "", "", BucketIndex(s.timestamp));
      assert buffer == Stored(r);
      var newBucketIndex := BucketIndex(s.timestamp);
      if newBucketIndex > buffer.currentBucketIndex {
        buffer := Buffer("", buffer.bucket0Swaps, buffer.bucket1Swaps, buffer.bucket2Swaps, newBucketIndex);
      }
      ghost var r' := Rotate(r, s.timestamp);
      assert buffer == Stored(r');
      RenderEmpty(r'.bucket0);
      RenderAppend(r'.bucket0, s);
      var swapData := EntryText(s);
      if buffer.bucket0Swaps == "" {
        buffer := buffer.(bucket0Swaps := swapData);
      } else {
        buffer := buffer.(bucket0Swaps := buffer.bucket0Swaps + "|" + swapData);
      }
      AgreeUpdate(buffers, rings, agent, Add(r, s));
      buffers := buffers[agent := buffer];
      rings := rings[agent := Add(r, s)];
    }

    /** The loop that flags the swaps of the associated entries. */
    method MarkAssociated(entries: seq<string>)
      modifies this`associated
      ensures associated == Mark(old(associated), EntryIds(entries))
    {
      for i := 0 to |entries|
        invariant associated == Mark(old(associated), EntryIds(entries[..i]))
      {
        assert entries[..i + 1] == entries[..i] + [entries[i]];
        EntryIdsAppend(entries[..i], entries[i]);
        var parts := Split(entries[i], ',');
        if |parts| >= 5 {
          var id := ParseHex(parts[4]);
          if id in associated {
            associated := associated[id := true];
          }
        }
      }
      assert entries[..|entries|] == entries;
    }

    /** One bucket's turn of the outer loop; `b` is what the bucket stores. */
    method DrainBucket(bucketData: string, now: nat, ghost b: seq<Swap>) returns (updated: string, slippage: real)
      requires bucketData == Render(b)
      modifies this`associated
      ensures updated == Render(Left(b, now)) && slippage == Slippage(Taken(b, now))
      ensures associated == Mark(old(associated), Ids(Taken(b, now)))
    {
      RenderEmpty(b);
      if bucketData == "" {
        return "", 0.0;
      }
      RenderRoundTrip(b);
      FilteredEntries(b, now);
      var matching, remaining := SplitByWindow(Split(bucketData, '|'), now);
      slippage := 0.0;
      if |matching| > 0 {
        BucketReads(Taken(b, now));
        slippage := ParseTotalSlippageFromBucket(Join(matching, '|'));
        MarkAssociated(matching);
      }
      updated := Join(remaining, '|');
    }

    /** The outer loop over the four buckets. */
    method DrainBuckets(buffer: Buffer, now: nat, ghost r: Ring) returns (updated: Buffer, total: real)
      requires buffer == Stored(r)
      modifies this`associated
      ensures updated == Stored(Drain(r, now)) && total == Collected(r, now)
      ensures associated == Mark(old(associated), TakenIds(r, now))
    {
      var u0, s0 := DrainBucket(buffer.bucket0Swaps, now, r.bucket0);
      var u1, s1 := DrainBucket(buffer.bucket1Swaps, now, r.bucket1);
      MarkTwice(old(associated), Ids(Taken(r.bucket0, now)), Ids(Taken(r.bucket1, now)));
      var u2, s2 := DrainBucket(buffer.bucket2Swaps, now, r.bucket2);
      MarkTwice(old(associated), Ids(Taken(r.bucket0, now)) + Ids(Taken(r.bucket1, now)), Ids(Taken(r.bucket2, now)));
      var u3, s3 := DrainBucket(buffer.bucket3Swaps, now, r.bucket3);
      MarkTwice(old(associated), Ids(Taken(r.bucket0, now)) + Ids(Taken(r.bucket1, now)) + Ids(Taken(r.bucket2, now)),
                Ids(Taken(r.bucket3, now)));
      updated := Buffer(u0, u1, u2, u3, buffer.currentBucketIndex);
      total := s0 + s1 + s2 + s3;
    }

    /** `associateSwapsWithPosition`. */
    method AssociateSwapsWithPosition(agent: nat, now: nat) returns (charge: real)
      requires Valid()
      modifies this
      ensures Valid()
      ensures agent !in old(rings) ==> charge == 0.0 && rings == old(rings) && associated == old(associated)
      ensures agent in old(rings) ==>
                && charge >= 0.0
                && (Collected(old(rings)[agent], now) >= 0.0 ==> charge == Collected(old(rings)[agent], now))
                && (Collected(old(rings)[agent], now) < 0.0 ==> charge == 0.0)
                && rings == old(rings)[agent := Drain(old(rings)[agent], now)]
                && associated == Mark(old(associated), TakenIds(old(rings)[agent], now))
    {
      if agent !in buffers {
        return 0.0;
      }
      ghost var r := rings[agent];
      var buffer, total := DrainBuckets(buffers[agent], now, r);
      AgreeUpdate(buffers, rings, agent, Drain(r, now));
      buffers := buffers[agent := buffer];
      rings := rings[agent := Drain(r, now)];
      charge := if total < 0.0 then 0.0 else total;
    }
  }

  lemma RenderStartsWithDigit(b: seq<Swap>)
    requires b != []
    ensures Render(b) != "" && '0' <= Render(b)[0] <= '9'
  {
    var first := Entries(b)[0];
    EntriesPrefix(b, 1);
    assert first == EntryText(b[0]);
    assert EntryText(b[0])[0] == NatText(b[0].timestamp)[0];
    assert Join(Entries(b), '|')[0] == first[0];
  }

  /** No stored bucket reads as the literal that the parser skips. */
  lemma BracketsAreNoBucket(b: seq<Swap>)
    ensures Render(b) != "[]"
  {
    if b != [] {
      RenderStartsWithDigit(b);
    }
  }

  lemma {:induction false} EntriesPrefix(b: seq<Swap>, n: nat)
    requires 0 < n <= |b|
    ensures Entries(b)[n - 1] == EntryText(b[n - 1])
  {
    if n < |b| {
      EntriesPrefix(b[..|b| - 1], n);
    }
  }
}
