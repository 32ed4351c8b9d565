/** The body of a BMP Statistics Report, section 4.8 of RFC 7854: a count, then one
    type-length-value triple per statistic. */
module StatsReport {
  import opened Bytes
  import opened Wrappers

  const U32: nat := 0x1_0000_0000
  const U64: nat := 0x1_0000_0000_0000_0000

  type u64 = n: nat | n < 0x1_0000_0000_0000_0000

  datatype Family = Family(afi: nat, safi: nat) {
    predicate Valid() { afi < 0x1_0000 && safi < 0x100 }
  }

  /** A snapshot of the counters of one peer; the two lists come out of hash maps. */
  datatype Snapshot = Snapshot(
    prefixesRejected: u64,
    dupPrefixAdvertisements: u64,
    dupWithdraws: u64,
    invalidClusterListLoops: u64,
    invalidAsPathLoops: u64,
    invalidOriginatorId: u64,
    invalidAsConfedLoops: u64,
    adjRibInRoutes: u64,
    locRibRoutes: u64,
    adjRibInPerFamily: seq<(Family, u64)>,
    locRibPerFamily: seq<(Family, u64)>,
    updatesTreatAsWithdraw: u64,
    prefixesTreatAsWithdraw: u64,
    dupUpdates: u64)
  {
    predicate Valid() {
      && (forall k :: 0 <= k < |adjRibInPerFamily| ==> adjRibInPerFamily[k].0.Valid())
      && (forall k :: 0 <= k < |locRibPerFamily| ==> locRibPerFamily[k].0.Valid())
    }

    /** The counters nobody counts up. */
    predicate Untracked() {
      && dupPrefixAdvertisements == dupWithdraws == invalidClusterListLoops == invalidAsPathLoops == 0
      && invalidOriginatorId == invalidAsConfedLoops == locRibRoutes == 0
      && updatesTreatAsWithdraw == prefixesTreatAsWithdraw == dupUpdates == 0
    }

    function Families(): nat { |adjRibInPerFamily| + |locRibPerFamily| }
  }

  // ---- Writing ----

  /** A counter that does not fit is reported as the largest that does. */
  function Clamped(value: u64): nat {
    if value < U32 then value else U32 - 1
  }

  /** The buffer holds four bytes for the count, then the statistics written so far. */
  ghost predicate Holds(buf: seq<byte>, stats: seq<Stat>) {
    |buf| >= 4 && buf[4..] == Written(stats)
  }

  method PutCounterTlv(buf: seq<byte>, statType: nat, value: u64, ghost stats: seq<Stat>)
    returns (r: seq<byte>, ghost next: seq<Stat>)
    requires Holds(buf, stats)
    ensures next == stats + [Counter(statType, Clamped(value))] && Holds(r, next)
  {
    var v := if value < U32 then value else U32 - 1;
    r := buf + BigEndian(statType, 2);
    r := r + BigEndian(4, 2);
    r := r + BigEndian(v, 4);
    next := stats + [Counter(statType, v)];
    Appended(buf, stats, Counter(statType, v), BigEndian(statType, 2), BigEndian(4, 2), BigEndian(v, 4), r);
  }

  method PutGaugeTlv(buf: seq<byte>, statType: nat, value: u64, ghost stats: seq<Stat>)
    returns (r: seq<byte>, ghost next: seq<Stat>)
    requires Holds(buf, stats)
    ensures next == stats + [Gauge(statType, value)] && Holds(r, next)
  {
    r := buf + BigEndian(statType, 2);
    r := r + BigEndian(8, 2);
    r := r + BigEndian(value, 8);
    next := stats + [Gauge(statType, value)];
    Appended(buf, stats, Gauge(statType, value), BigEndian(statType, 2), BigEndian(8, 2), BigEndian(value, 8), r);
  }

  method PutPerAfiSafiTlv(buf: seq<byte>, statType: nat, afi: nat, safi: nat, value: u64, ghost stats: seq<Stat>)
    returns (r: seq<byte>, ghost next: seq<Stat>)
    requires Holds(buf, stats)
    ensures next == stats + [FamilyGauge(statType, Family(afi, safi), value)] && Holds(r, next)
  {
    r := buf + BigEndian(statType, 2);
    r := r + BigEndian(11, 2);
    r := r + BigEndian(afi, 2);
    r := r + BigEndian(safi, 1);
    r := r + BigEndian(value, 8);
    ghost var data := BigEndian(afi, 2) + BigEndian(safi, 1) + BigEndian(value, 8);
    assert r == buf + BigEndian(statType, 2) + BigEndian(11, 2) + data;
    next := stats + [FamilyGauge(statType, Family(afi, safi), value)];
    Appended(buf, stats, FamilyGauge(statType, Family(afi, safi), value), BigEndian(statType, 2), BigEndian(11, 2), data, r);
  }

  /** The loop over one of the two per-family lists. */
  method PutPerFamily(buf: seq<byte>, statType: nat, entries: seq<(Family, u64)>, count: nat, ghost stats: seq<Stat>)
    returns (r: seq<byte>, newCount: nat, ghost next: seq<Stat>)
    requires Holds(buf, stats)
    ensures next == stats + PerFamily(statType, entries) && Holds(r, next)
    ensures newCount == count + |entries|
  {
    r, newCount, next := buf, count, stats;
    for k := 0 to |entries|
      invariant newCount == count + k
      invariant next == stats + PerFamily(statType, entries[..k]) && Holds(r, next)
    {
      var entry := entries[k];
      r, next := PutPerAfiSafiTlv(r, statType, entry.0.afi, entry.0.safi, entry.1, next);
      newCount := newCount + 1;
      PerFamilyNext(stats, statType, entries, k);
    }
    assert entries[..|entries|] == entries;
  }

  /** The nine fixed statistics before the per-family ones. */
  method PutHead(snap: Snapshot, buf: seq<byte>) returns (r: seq<byte>, ghost next: seq<Stat>)
    requires |buf| == 4
    ensures next == Head(snap) && Holds(r, next)
  {
    r, next := PutCounterTlv(buf, 0, snap.prefixesRejected, []);
    r, next := PutCounterTlv(r, 1, snap.dupPrefixAdvertisements, next);
    r, next := PutCounterTlv(r, 2, snap.dupWithdraws, next);
    r, next := PutCounterTlv(r, 3, snap.invalidClusterListLoops, next);
    r, next := PutCounterTlv(r, 4, snap.invalidAsPathLoops, next);
    r, next := PutCounterTlv(r, 5, snap.invalidOriginatorId, next);
    r, next := PutCounterTlv(r, 6, snap.invalidAsConfedLoops, next);
    r, next := PutGaugeTlv(r, 7, snap.adjRibInRoutes, next);
    r, next := PutGaugeTlv(r, 8, snap.locRibRoutes, next);
  }

  /** The three fixed statistics after them. */
  method PutTail(snap: Snapshot, buf: seq<byte>, ghost stats: seq<Stat>)
    returns (r: seq<byte>, ghost next: seq<Stat>)
    requires Holds(buf, stats)
    ensures next == stats + Tail(snap) && Holds(r, next)
  {
    r, next := PutCounterTlv(buf, 11, snap.updatesTreatAsWithdraw, stats);
    r, next := PutCounterTlv(r, 12, snap.prefixesTreatAsWithdraw, next);
    r, next := PutCounterTlv(r, 13, snap.dupUpdates, next);
    assert next == stats + Tail(snap);
  }

  /** The count is patched into the first four bytes; what exceeds 32 bits of it is lost there,
      as it is in the 32-bit additions of the code. */
  method BuildStatsBody(snap: Snapshot) returns (body: seq<byte>)
    ensures body == Body(snap)
  {
    var buf := BigEndian(0, 4);
    var count := 0;
    ghost var done: seq<Stat>;
    buf, done := PutHead(snap, buf);
    count := count + 9;
    buf, count, done := PutPerFamily(buf, 9, snap.adjRibInPerFamily, count, done);
    buf, count, done := PutPerFamily(buf, 10, snap.locRibPerFamily, count, done);
    buf, done := PutTail(snap, buf, done);
    count := count + 3;
    assert done == Stats(snap) && count == 12 + snap.Families();
    body := Patched(count, buf);
  }

  function Patched(count: nat, buf: seq<byte>): seq<byte>
    requires |buf| >= 4
  {
    BigEndian(count, 4) + buf[4..]
  }

  function Body(snap: Snapshot): seq<byte> {
    BigEndian(12 + snap.Families(), 4) + Written(Stats(snap))
  }

  // ---- What the body says ----

  datatype Stat =
    | Counter(statType: nat, value: nat)
    | Gauge(statType: nat, value: nat)
    | FamilyGauge(statType: nat, family: Family, value: nat)

  function PerFamily(statType: nat, entries: seq<(Family, u64)>): (s: seq<Stat>)
    ensures |s| == |entries|
    ensures forall k :: 0 <= k < |s| ==> s[k] == FamilyGauge(statType, entries[k].0, entries[k].1)
  {
    seq(|entries|, k requires 0 <= k < |entries| => FamilyGauge(statType, entries[k].0, entries[k].1))
  }

  lemma PerFamilyNext(stats: seq<Stat>, statType: nat, entries: seq<(Family, u64)>, k: nat)
    requires k < |entries|
    ensures stats + PerFamily(statType, entries[..k]) + [FamilyGauge(statType, entries[k].0, entries[k].1)]
         == stats + PerFamily(statType, entries[..k + 1])
  {
  }

  function Head(snap: Snapshot): seq<Stat> {
    [Counter(0, Clamped(snap.prefixesRejected)), Counter(1, Clamped(snap.dupPrefixAdvertisements)),
     Counter(2, Clamped(snap.dupWithdraws)), Counter(3, Clamped(snap.invalidClusterListLoops)),
     Counter(4, Clamped(snap.invalidAsPathLoops)), Counter(5, Clamped(snap.invalidOriginatorId)),
     Counter(6, Clamped(snap.invalidAsConfedLoops)),
     Gauge(7, snap.adjRibInRoutes), Gauge(8, snap.locRibRoutes)]
  }

  function Tail(snap: Snapshot): seq<Stat> {
    [Counter(11, Clamped(snap.updatesTreatAsWithdraw)), Counter(12, Clamped(snap.prefixesTreatAsWithdraw)),
     Counter(13, Clamped(snap.dupUpdates))]
  }

  function Stats(snap: Snapshot): seq<Stat> {
    Head(snap) + PerFamily(9, snap.adjRibInPerFamily) + PerFamily(10, snap.locRibPerFamily) + Tail(snap)
  }

  function Tlv(stat: Stat): seq<byte> {
    match stat
    case Counter(ty, v) => BigEndian(ty, 2) + BigEndian(4, 2) + BigEndian(v, 4)
    case Gauge(ty, v) => BigEndian(ty, 2) + BigEndian(8, 2) + BigEndian(v, 8)
    case FamilyGauge(ty, f, v) =>
      BigEndian(ty, 2) + BigEndian(11, 2) + (BigEndian(f.afi, 2) + BigEndian(f.safi, 1) + BigEndian(v, 8))
  }

  function Written(stats: seq<Stat>): seq<byte> {
    if stats == [] then [] else Tlv(stats[0]) + Written(stats[1..])
  }

  lemma {:induction false} WrittenNext(stats: seq<Stat>, stat: Stat)
    ensures Written(stats + [stat]) == Written(stats) + Tlv(stat)
  {
    if stats == [] {
      assert Written([stat]) == Tlv(stat) + Written([]);
      assert stats + [stat] == [stat];
    } else {
      WrittenNext(stats[1..], stat);
      assert (stats + [stat])[1..] == stats[1..] + [stat];
      Associates(Tlv(stats[0]), Written(stats[1..]), Tlv(stat));
    }
  }

  lemma Associates(a: seq<byte>, b: seq<byte>, c: seq<byte>)
    ensures a + (b + c) == a + b + c
  {
  }

  lemma AfterCount(buf: seq<byte>, a: seq<byte>, b: seq<byte>, c: seq<byte>)
    requires |buf| >= 4
    ensures (buf + a + b + c)[4..] == buf[4..] + (a + b + c)
  {
  }

  lemma Appended(buf: seq<byte>, stats: seq<Stat>, stat: Stat, ty: seq<byte>, len: seq<byte>, data: seq<byte>, r: seq<byte>)
    requires Holds(buf, stats) && Tlv(stat) == ty + len + data && r == buf + ty + len + data
    ensures Holds(r, stats + [stat])
  {
    WrittenNext(stats, stat);
    AfterCount(buf, ty, len, data);
  }

  // ---- Reading ----

  /** What a collector makes of one triple, by its type and length. */
  function Meaning(statType: nat, data: seq<byte>): Option<Stat> {
    if (statType <= 6 || 11 <= statType <= 13) && |data| == 4 then
      Some(Counter(statType, Value(data)))
    else if 7 <= statType <= 8 && |data| == 8 then
      Some(Gauge(statType, Value(data)))
    else if 9 <= statType <= 10 && |data| == 11 then
      Some(FamilyGauge(statType, Family(Value(data[..2]), Value(data[2..3])), Value(data[3..])))
    else
      None
  }

  /** Walk the triples by type and length; every byte must be used. */
  function Read(bytes: seq<byte>): Option<seq<Stat>>
    decreases |bytes|
  {
    if bytes == [] then Some([])
    else if |bytes| < 4 then None
    else
      var len := Value(bytes[2..4]);
      if |bytes| < 4 + len then None
      else
        var stat := Meaning(Value(bytes[..2]), bytes[4..4 + len]);
        var rest := Read(bytes[4 + len..]);
        if stat.Some? && rest.Some? then Some([stat.value] + rest.value) else None
  }

  /** The types and sizes of the standard. */
  predicate Proper(stat: Stat) {
    match stat
    case Counter(ty, v) => (ty <= 6 || 11 <= ty <= 13) && v < U32
    case Gauge(ty, v) => 7 <= ty <= 8 && v < U64
    case FamilyGauge(ty, f, v) => 9 <= ty <= 10 && f.Valid() && v < U64
  }

  lemma Slices(ty: seq<byte>, len: seq<byte>, data: seq<byte>, rest: seq<byte>)
    requires |ty| == 2 && |len| == 2
    ensures var bytes := ty + len + data + rest;
            && bytes[..2] == ty && bytes[2..4] == len
            && bytes[4..4 + |data|] == data && bytes[4 + |data|..] == rest
  {
  }

  lemma ReadTlv(stat: Stat, rest: seq<byte>)
    requires Proper(stat)
    ensures Read(Tlv(stat) + rest) == match Read(rest) case Some(s) => Some([stat] + s) case None => None
  {
    var ty, data := Fields(stat);
    Widths();
    Fits(ty, 2);
    Fits(|data|, 2);
    ReadParts(BigEndian(ty, 2), BigEndian(|data|, 2), data, rest);
  }

  lemma ReadParts(ty: seq<byte>, len: seq<byte>, data: seq<byte>, rest: seq<byte>)
    requires |ty| == 2 && |len| == 2 && Value(len) == |data| && Meaning(Value(ty), data).Some?
    ensures Read(ty + len + data + rest)
         == match Read(rest) case Some(s) => Some([Meaning(Value(ty), data).value] + s) case None => None
  {
    Slices(ty, len, data, rest);
    ReadFront(Value(ty), data, ty + len + data + rest, rest);
  }

  lemma ReadFront(ty: nat, data: seq<byte>, bytes: seq<byte>, rest: seq<byte>)
    requires |bytes| == 4 + |data| + |rest|
    requires Value(bytes[..2]) == ty && Value(bytes[2..4]) == |data|
    requires bytes[4..4 + |data|] == data && bytes[4 + |data|..] == rest
    requires Meaning(ty, data).Some?
    ensures Read(bytes) == match Read(rest) case Some(s) => Some([Meaning(ty, data).value] + s) case None => None
  {
  }

  /** A number that fits its field is read back. */
  lemma Fits(n: nat, width: nat)
    requires n < Pow256(width)
    ensures Value(BigEndian(n, width)) == n
  {
    ValueOfBigEndian(n, width);
  }

  lemma FamilyMeaning(ty: nat, afi: seq<byte>, safi: seq<byte>, value: seq<byte>)
    requires 9 <= ty <= 10 && |afi| == 2 && |safi| == 1 && |value| == 8
    ensures Meaning(ty, afi + safi + value) == Some(FamilyGauge(ty, Family(Value(afi), Value(safi)), Value(value)))
  {
    var data := afi + safi + value;
    assert data[..2] == afi && data[2..3] == safi && data[3..] == value;
  }

  /** Type and data of a statistic, which mean that statistic. */
  lemma Fields(stat: Stat) returns (ty: nat, data: seq<byte>)
    requires Proper(stat)
    ensures Tlv(stat) == BigEndian(ty, 2) + BigEndian(|data|, 2) + data
    ensures Meaning(ty, data) == Some(stat) && ty <= 13 && |data| <= 11
  {
    Widths();
    ty := stat.statType;
    match stat
    case Counter(_, v) =>
      data := BigEndian(v, 4);
      Fits(v, 4);
    case Gauge(_, v) =>
      data := BigEndian(v, 8);
      Fits(v, 8);
    case FamilyGauge(_, f, v) =>
      var afi, safi, value := BigEndian(f.afi, 2), BigEndian(f.safi, 1), BigEndian(v, 8);
      data := afi + safi + value;
      Fits(f.afi, 2);
      Fits(f.safi, 1);
      Fits(v, 8);
      FamilyMeaning(ty, afi, safi, value);
  }

  lemma {:induction false} ReadWritten(stats: seq<Stat>)
    requires forall k :: 0 <= k < |stats| ==> Proper(stats[k])
    ensures Read(Written(stats)) == Some(stats)
  {
    if stats != [] {
      ReadWritten(stats[1..]);
      ReadTlv(stats[0], Written(stats[1..]));
      assert stats == [stats[0]] + stats[1..];
    }
  }

  function TlvSize(stat: Stat): nat {
    match stat
    case Counter(_, _) => 8
    case Gauge(_, _) => 12
    case FamilyGauge(_, _, _) => 15
  }

  function Size(stats: seq<Stat>): nat {
    if stats == [] then 0 else TlvSize(stats[0]) + Size(stats[1..])
  }

  lemma {:induction false} WrittenSize(stats: seq<Stat>)
    ensures |Written(stats)| == Size(stats)
  {
    if stats != [] {
      WrittenSize(stats[1..]);
    }
  }

  lemma {:induction false} SizeConcat(a: seq<Stat>, b: seq<Stat>)
    ensures Size(a + b) == Size(a) + Size(b)
  {
    if a == [] {
      assert a + b == b;
    } else {
      SizeConcat(a[1..], b);
      assert (a + b)[1..] == a[1..] + b;
    }
  }

  lemma {:induction false} SizeUniform(stats: seq<Stat>, size: nat)
    requires forall k :: 0 <= k < |stats| ==> TlvSize(stats[k]) == size
    ensures Size(stats) == size * |stats|
  {
    if stats != [] {
      SizeUniform(stats[1..], size);
    }
  }

  /** For every snapshot: the length, the announced count, and every gauge exactly and every
      counter clamped to 2^32 - 1, in the order of the standard. */
  lemma RoundTrip(snap: Snapshot)
    requires snap.Valid()
    ensures |Body(snap)| == 108 + 15 * snap.Families()
    ensures Value(Body(snap)[..4]) == (12 + snap.Families()) % U32
    ensures Read(Body(snap)[4..]) == Some(Stats(snap))
    ensures |Stats(snap)| == 12 + snap.Families()
  {
    BodyParts(BigEndian(12 + snap.Families(), 4), Written(Stats(snap)));
    Announced(12 + snap.Families());
    StatsProper(snap);
    ReadWritten(Stats(snap));
    WrittenSize(Stats(snap));
    StatsSize(snap);
  }

  lemma BodyParts(count: seq<byte>, stats: seq<byte>)
    requires |count| == 4
    ensures (count + stats)[..4] == count && (count + stats)[4..] == stats && |count + stats| == 4 + |stats|
  {
  }

  /** The count is written into four bytes. */
  lemma Announced(n: nat)
    ensures |BigEndian(n, 4)| == 4 && Value(BigEndian(n, 4)) == n % U32
  {
    Widths();
    ValueOfBigEndian(n, 4);
  }

  lemma StatsProper(snap: Snapshot)
    requires snap.Valid()
    ensures |Stats(snap)| == 12 + snap.Families()
    ensures forall k :: 0 <= k < |Stats(snap)| ==> Proper(Stats(snap)[k])
  {
    var a, b, c, d := Head(snap), PerFamily(9, snap.adjRibInPerFamily), PerFamily(10, snap.locRibPerFamily), Tail(snap);
    forall k | 0 <= k < |Stats(snap)| ensures Proper(Stats(snap)[k]) {
      assert Stats(snap)[k] in a || Stats(snap)[k] in b || Stats(snap)[k] in c || Stats(snap)[k] in d;
    }
  }

  lemma StatsSize(snap: Snapshot)
    ensures Size(Stats(snap)) == 104 + 15 * snap.Families()
  {
    var a, b, c, d := Head(snap), PerFamily(9, snap.adjRibInPerFamily), PerFamily(10, snap.locRibPerFamily), Tail(snap);
    SizeConcat(a + b + c, d);
    SizeConcat(a + b, c);
    SizeConcat(a, b);
    assert a == a[..7] + a[7..];
    SizeConcat(a[..7], a[7..]);
    SizeUniform(a[..7], 8);
    SizeUniform(a[7..], 12);
    SizeUniform(b, 15);
    SizeUniform(c, 15);
    SizeUniform(d, 8);
  }

  /** The statistics of one type, in order. */
  function OfType(stats: seq<Stat>, statType: nat): seq<Stat> {
    if stats == [] then []
    else (if stats[0].statType == statType then [stats[0]] else []) + OfType(stats[1..], statType)
  }

  lemma Regrouped(a: seq<Stat>, b: seq<Stat>, c: seq<Stat>)
    ensures a + (b + c) == (a + b) + c
  {
  }

  lemma {:induction false} OfTypeConcat(a: seq<Stat>, b: seq<Stat>, statType: nat)
    ensures OfType(a + b, statType) == OfType(a, statType) + OfType(b, statType)
  {
    if a == [] {
      assert a + b == b;
    } else {
      var here := if a[0].statType == statType then [a[0]] else [];
      var after := OfType(a[1..], statType);
      assert (a + b)[0] == a[0] && (a + b)[1..] == a[1..] + b;
      OfTypeConcat(a[1..], b, statType);
      Regrouped(here, after, OfType(b, statType));
    }
  }

  lemma {:induction false} OfTypeAll(stats: seq<Stat>, statType: nat)
    requires forall k :: 0 <= k < |stats| ==> stats[k].statType == statType
    ensures OfType(stats, statType) == stats
  {
    if stats != [] {
      OfTypeAll(stats[1..], statType);
    }
  }

  lemma {:induction false} OfTypeNone(stats: seq<Stat>, statType: nat)
    requires forall k :: 0 <= k < |stats| ==> stats[k].statType != statType
    ensures OfType(stats, statType) == []
  {
    if stats != [] {
      OfTypeNone(stats[1..], statType);
    }
  }

  lemma OfTypeOne(stats: seq<Stat>, j: nat, statType: nat)
    requires j < |stats|
    requires forall k :: 0 <= k < |stats| ==> (stats[k].statType == statType <==> k == j)
    ensures OfType(stats, statType) == [stats[j]]
  {
    assert stats == stats[..j] + [stats[j]] + stats[j + 1..];
    OfTypeConcat(stats[..j] + [stats[j]], stats[j + 1..], statType);
    OfTypeConcat(stats[..j], [stats[j]], statType);
    OfTypeNone(stats[..j], statType);
    OfTypeNone(stats[j + 1..], statType);
    OfTypeAll([stats[j]], statType);
  }

  /** What a collector finds under each type. */
  function Reported(snap: Snapshot, statType: nat): seq<Stat> {
    if statType < 9 then [Head(snap)[statType]]
    else if statType == 9 then PerFamily(9, snap.adjRibInPerFamily)
    else if statType == 10 then PerFamily(10, snap.locRibPerFamily)
    else if statType <= 13 then [Tail(snap)[statType - 11]]
    else []
  }

  lemma HeadTypes(snap: Snapshot)
    ensures |Head(snap)| == 9 && forall k :: 0 <= k < 9 ==> Head(snap)[k].statType == k
  {
  }

  lemma HeadByType(snap: Snapshot, statType: nat)
    ensures OfType(Head(snap), statType) == if statType < 9 then [Head(snap)[statType]] else []
  {
    HeadTypes(snap);
    if statType < 9 { OfTypeOne(Head(snap), statType, statType); } else { OfTypeNone(Head(snap), statType); }
  }

  lemma TailByType(snap: Snapshot, statType: nat)
    ensures OfType(Tail(snap), statType) == if 11 <= statType <= 13 then [Tail(snap)[statType - 11]] else []
  {
    if 11 <= statType <= 13 { OfTypeOne(Tail(snap), statType - 11, statType); } else { OfTypeNone(Tail(snap), statType); }
  }

  lemma FamiliesByType(listed: nat, entries: seq<(Family, u64)>, statType: nat)
    ensures OfType(PerFamily(listed, entries), statType) == if statType == listed then PerFamily(listed, entries) else []
  {
    if statType == listed { OfTypeAll(PerFamily(listed, entries), statType); }
    else { OfTypeNone(PerFamily(listed, entries), statType); }
  }

  lemma OfTypeParts(a: seq<Stat>, b: seq<Stat>, c: seq<Stat>, d: seq<Stat>, statType: nat)
    ensures OfType(a + b + c + d, statType) ==
            OfType(a, statType) + OfType(b, statType) + OfType(c, statType) + OfType(d, statType)
  {
    OfTypeConcat(a + b + c, d, statType);
    OfTypeConcat(a + b, c, statType);
    OfTypeConcat(a, b, statType);
  }

  lemma OneOfFour(a: seq<Stat>, b: seq<Stat>, c: seq<Stat>, d: seq<Stat>)
    ensures b == c == d == [] ==> a + b + c + d == a
    ensures a == c == d == [] ==> a + b + c + d == b
    ensures a == b == d == [] ==> a + b + c + d == c
    ensures a == b == c == [] ==> a + b + c + d == d
  {
  }

  lemma StatsByType(snap: Snapshot, statType: nat)
    ensures OfType(Stats(snap), statType) == Reported(snap, statType)
  {
    var a, b, c, d := Head(snap), PerFamily(9, snap.adjRibInPerFamily), PerFamily(10, snap.locRibPerFamily), Tail(snap);
    OneOfFour(OfType(a, statType), OfType(b, statType), OfType(c, statType), OfType(d, statType));
    OfTypeParts(a, b, c, d, statType);
    HeadByType(snap, statType);
    FamiliesByType(9, snap.adjRibInPerFamily, statType);
    FamiliesByType(10, snap.locRibPerFamily, statType);
    TailByType(snap, statType);
  }
}
