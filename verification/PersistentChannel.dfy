/**
 The disk-backed channel (internal/core/channel/persistent.go). Three records of the same messages
 have to agree: the index in memory, the saved index, and the directory of message files, whose
 total size is counted incrementally. Every file operation succeeds; a file name stands for its id.
 */
module PersistentChannel {
  import opened Wrappers
  import opened ChannelModel

  datatype Record = Record(id: int, message: Message, created: int)

  datatype Index = Saved(messages: seq<Record>, nextID: int, closed: bool) | Corrupt

  /** The data directory: message files by id, `index.json` when there is one, and the size of a file. */
  class Disk {
    var files: map<int, Message>
    var index: Option<Index>
    const sizeOf: Message -> nat

    constructor (sizeOf: Message -> nat)
      ensures files == map[] && index == None && this.sizeOf == sizeOf
    {
      files, index := map[], None;
      this.sizeOf := sizeOf;
    }
  }

  function Total(sizeOf: Message -> nat, s: seq<Record>): nat {
    if s == [] then 0 else sizeOf(s[0].message) + Total(sizeOf, s[1..])
  }

  predicate HasId(s: seq<Record>, id: int) {
    exists r :: r in s && r.id == id
  }

  /** The records are exactly the files, one record a file. */
  predicate Matches(s: seq<Record>, files: map<int, Message>) {
    if s == [] then files == map[]
    else s[0].id in files && files[s[0].id] == s[0].message && Matches(s[1..], files - {s[0].id})
  }

  /** The clock never goes back, so live messages are in order of creation. */
  predicate InTime(s: seq<Record>, clock: int) {
    s == [] || (s[0].created <= (if |s| > 1 then s[1].created else clock) && InTime(s[1..], clock))
  }

  /** The two predicates in terms of positions: distinct ids, exactly the files, creation in order. */
  lemma {:induction false} MatchesMeans(s: seq<Record>, files: map<int, Message>)
    requires Matches(s, files)
    ensures forall i, j :: 0 <= i < j < |s| ==> s[i].id != s[j].id
    ensures forall r :: r in s ==> r.id in files && files[r.id] == r.message
    ensures forall id :: id in files ==> HasId(s, id)
  {
    if s != [] {
      var tail := s[1..];
      MatchesMeans(tail, files - {s[0].id});
      assert s[0] in s;
      assert forall r :: r in s <==> r == s[0] || r in tail;
      forall i, j | 0 <= i < j < |s| ensures s[i].id != s[j].id {
        assert s[j] == tail[j - 1] && tail[j - 1] in tail;
        if i > 0 { assert s[i] == tail[i - 1]; }
      }
      forall id | id in files ensures HasId(s, id) {
        if id != s[0].id { assert HasId(tail, id); }
      }
    }
  }

  lemma {:induction false} InTimeMeans(s: seq<Record>, clock: int)
    ensures InTime(s, clock) <==>
        && (forall i, j :: 0 <= i < j < |s| ==> s[i].created <= s[j].created)
        && (forall r :: r in s ==> r.created <= clock)
  {
    if s != [] {
      InTimeMeans(s[1..], clock);
      assert forall r :: r in s <==> r == s[0] || r in s[1..];
      if InTime(s, clock) {
        forall i, j | 0 <= i < j < |s| ensures s[i].created <= s[j].created {
          assert s[j] == s[1..][j - 1] && s[1] == s[1..][0];
          if i > 0 { assert s[i] == s[1..][i - 1]; }
        }
        if |s| > 1 { assert s[1] in s[1..]; }
      }
    }
  }

  function Ids(s: seq<Record>): set<int> {
    set r | r in s :: r.id
  }

  /** The message files that no record of `s` names. */
  function Unlisted(files: map<int, Message>, s: seq<Record>): set<int> {
    files.Keys - Ids(s)
  }

  lemma MatchesKeys(s: seq<Record>, files: map<int, Message>)
    requires Matches(s, files)
    ensures files.Keys == Ids(s)
  {
    MatchesMeans(s, files);
    forall id | id in files
      ensures id in Ids(s)
    {
      assert HasId(s, id);
    }
  }

  /** Which files are left over is determined by the records. */
  lemma OrphansAre(s: seq<Record>, files: map<int, Message>, orphans: set<int>)
    requires orphans <= files.Keys && Matches(s, files - orphans)
    ensures orphans == Unlisted(files, s)
  {
    MatchesKeys(s, files - orphans);
  }

  // ---------------------------------------------------------------- sizes

  lemma {:induction false} TotalAppend(sizeOf: Message -> nat, s: seq<Record>, t: seq<Record>)
    ensures Total(sizeOf, s + t) == Total(sizeOf, s) + Total(sizeOf, t)
  {
    if s == [] {
      assert s + t == t;
    } else {
      assert (s + t)[1..] == s[1..] + t;
      TotalAppend(sizeOf, s[1..], t);
    }
  }

  /** Every file has its record, and taking the record away takes its file away, wherever it stands. */
  lemma {:induction false} MatchesWithout(s: seq<Record>, files: map<int, Message>, id: int) returns (i: nat)
    requires Matches(s, files) && id in files
    ensures i < |s| && s[i] == Record(id, files[id], s[i].created)
    ensures Matches(s[..i] + s[i + 1..], files - {id})
  {
    if s[0].id == id {
      i := 0;
      assert s[..0] + s[1..] == s[1..];
    } else {
      var k := MatchesWithout(s[1..], files - {s[0].id}, id);
      i := k + 1;
      assert (s[..i] + s[i + 1..])[1..] == s[1..][..k] + s[1..][k + 1..];
      assert files - {s[0].id} - {id} == files - {id} - {s[0].id};
    }
  }

  /** Whatever the order the files are listed in, their records add up to the same size. */
  lemma {:induction false} TotalIsOfTheFiles(
    sizeOf: Message -> nat, s: seq<Record>, t: seq<Record>, files: map<int, Message>)
    requires Matches(s, files) && Matches(t, files)
    ensures |s| == |t| && Total(sizeOf, s) == Total(sizeOf, t)
    decreases |s|
  {
    if s != [] {
      var j := MatchesWithout(t, files, s[0].id);
      var rest := t[..j] + t[j + 1..];
      TotalIsOfTheFiles(sizeOf, s[1..], rest, files - {s[0].id});
      assert t == t[..j] + ([t[j]] + t[j + 1..]);
      TotalAppend(sizeOf, t[..j], [t[j]] + t[j + 1..]);
      TotalAppend(sizeOf, t[..j], t[j + 1..]);
      TotalAppend(sizeOf, [t[j]], t[j + 1..]);
    }
  }

  // ---------------------------------------------------------------- retention

  datatype Limits = Limits(maxSize: int, evict: bool, maxMessages: int, maxAge: int)

  ghost predicate CountFits(l: Limits, s: seq<Record>) {
    l.maxMessages <= 0 || |s| <= l.maxMessages
  }

  ghost predicate SizeFits(l: Limits, sizeOf: Message -> nat, s: seq<Record>) {
    s == [] || Total(sizeOf, s) <= l.maxSize
  }

  ghost predicate AgeFits(l: Limits, s: seq<Record>, now: int) {
    l.maxAge <= 0 || forall r :: r in s ==> r.created > now - l.maxAge
  }

  /** Every retention limit that is switched on is met. */
  ghost predicate Fits(l: Limits, sizeOf: Message -> nat, s: seq<Record>, now: int) {
    CountFits(l, s) && (l.evict ==> SizeFits(l, sizeOf, s)) && AgeFits(l, s, now)
  }

  /** What was dropped was just enough: what is kept meets the limits, and with one record more would not. */
  ghost predicate JustEnough(l: Limits, sizeOf: Message -> nat, dropped: seq<Record>, kept: seq<Record>, now: int) {
    Fits(l, sizeOf, kept, now) && (dropped != [] ==> !Fits(l, sizeOf, [dropped[|dropped| - 1]] + kept, now))
  }

  /** What is dropped has to go: with the youngest of it kept, one of the limits that are on would be exceeded. */
  lemma DroppedForAReason(
    l: Limits, sizeOf: Message -> nat, dropped: seq<Record>, kept: seq<Record>, now: int)
    requires JustEnough(l, sizeOf, dropped, kept, now) && dropped != []
    ensures var r := dropped[|dropped| - 1];
            || (l.maxMessages > 0 && |kept| >= l.maxMessages)
            || (l.evict && sizeOf(r.message) + Total(sizeOf, kept) > l.maxSize)
            || (l.maxAge > 0 && exists m :: m in [r] + kept && now - m.created >= l.maxAge)
  {
    var r := dropped[|dropped| - 1];
    assert ([r] + kept)[1..] == kept;
  }

  lemma DropOne(q: seq<Record>, gone: seq<Record>, d: seq<Record>, s: seq<Record>)
    requires q == d + s && s != []
    ensures (gone + d) + [s[0]] == gone + (d + [s[0]])
    ensures q == (d + [s[0]]) + s[1..] && (d + [s[0]])[|d|] == s[0] && [s[0]] + s[1..] == s
  {
  }

  lemma FitsSuffix(l: Limits, sizeOf: Message -> nat, s: seq<Record>, t: seq<Record>, now: int)
    ensures CountFits(l, s + t) ==> CountFits(l, t)
    ensures SizeFits(l, sizeOf, s + t) ==> SizeFits(l, sizeOf, t)
    ensures AgeFits(l, s + t, now) ==> AgeFits(l, t, now)
  {
    TotalAppend(sizeOf, s, t);
  }

  /** What is kept is the longest suffix that meets the limits, so there is only one choice. */
  lemma LongestSuffix(
    l: Limits, sizeOf: Message -> nat, dropped: seq<Record>, kept: seq<Record>, now: int, j: nat)
    requires JustEnough(l, sizeOf, dropped, kept, now) && j <= |dropped + kept|
    ensures Fits(l, sizeOf, (dropped + kept)[j..], now) <==> |dropped| <= j
  {
    var q := dropped + kept;
    if |dropped| <= j {
      assert kept == kept[..j - |dropped|] + q[j..];
      FitsSuffix(l, sizeOf, kept[..j - |dropped|], q[j..], now);
    } else {
      var last := [dropped[|dropped| - 1]] + kept;
      assert q[j..] == dropped[j..|dropped| - 1] + last;
      FitsSuffix(l, sizeOf, dropped[j..|dropped| - 1], last, now);
    }
  }

  /** A send that succeeds leaves its message live exactly when the message alone meets the limits. */
  lemma SentIsLive(
    l: Limits, sizeOf: Message -> nat, s: seq<Record>, pm: Record, dropped: seq<Record>, kept: seq<Record>, now: int)
    requires s + [pm] == dropped + kept && JustEnough(l, sizeOf, dropped, kept, now)
    ensures pm in kept && kept[|kept| - 1] == pm <==> Fits(l, sizeOf, [pm], now)
  {
    LongestSuffix(l, sizeOf, dropped, kept, now, |s|);
    assert (s + [pm])[|s|..] == [pm];
    if |dropped| <= |s| {
      assert kept[|kept| - 1] == (dropped + kept)[|s|];
    }
  }

  /** A loop that drops just enough for one limit, then the others: together just enough for all. */
  lemma JustEnoughTogether(
    l: Limits, sizeOf: Message -> nat, d1: seq<Record>, d2: seq<Record>, kept: seq<Record>, now: int)
    requires d1 != [] ==> !Fits(l, sizeOf, [d1[|d1| - 1]] + (d2 + kept), now)
    requires JustEnough(l, sizeOf, d2, kept, now)
    ensures JustEnough(l, sizeOf, d1 + d2, kept, now)
  {
    if d2 == [] {
      assert d1 + d2 == d1 && d2 + kept == kept;
    }
  }

  lemma Regroup(d1: seq<Record>, d2: seq<Record>, d3: seq<Record>, kept: seq<Record>)
    ensures d2 + (d3 + kept) == (d2 + d3) + kept && d1 + (d2 + d3) == d1 + d2 + d3
    ensures d1 + (d2 + (d3 + kept)) == (d1 + d2 + d3) + kept
  {
  }

  lemma TickJustEnough(
    l: Limits, sizeOf: Message -> nat, d1: seq<Record>, d2: seq<Record>, d3: seq<Record>, kept: seq<Record>, now: int)
    requires AgeFits(l, d2 + (d3 + kept), now) && (d1 != [] ==> !AgeFits(l, [d1[|d1| - 1]] + (d2 + (d3 + kept)), now))
    requires CountFits(l, d3 + kept) && (d2 != [] ==> !CountFits(l, [d2[|d2| - 1]] + (d3 + kept)))
    requires (l.evict ==> SizeFits(l, sizeOf, kept))
             && (d3 != [] ==> l.evict && !SizeFits(l, sizeOf, [d3[|d3| - 1]] + kept))
    ensures JustEnough(l, sizeOf, d1 + d2 + d3, kept, now)
    ensures d1 + (d2 + (d3 + kept)) == (d1 + d2 + d3) + kept
  {
    FitsSuffix(l, sizeOf, d2, d3 + kept, now);
    FitsSuffix(l, sizeOf, d3, kept, now);
    JustEnoughTogether(l, sizeOf, d2, d3, kept, now);
    Regroup(d1, d2, d3, kept);
    JustEnoughTogether(l, sizeOf, d1, d2 + d3, kept, now);
  }

  lemma RetainJustEnough(
    l: Limits, sizeOf: Message -> nat, d1: seq<Record>, d2: seq<Record>, d3: seq<Record>, kept: seq<Record>, now: int)
    requires CountFits(l, d2 + (d3 + kept)) && (d1 != [] ==> !CountFits(l, [d1[|d1| - 1]] + (d2 + (d3 + kept))))
    requires l.evict ==> SizeFits(l, sizeOf, d3 + kept)
    requires d2 != [] ==> l.evict && !SizeFits(l, sizeOf, [d2[|d2| - 1]] + (d3 + kept))
    requires AgeFits(l, kept, now) && (d3 != [] ==> !AgeFits(l, [d3[|d3| - 1]] + kept, now))
    ensures JustEnough(l, sizeOf, d1 + d2 + d3, kept, now)
    ensures d1 + (d2 + (d3 + kept)) == (d1 + d2 + d3) + kept
  {
    FitsSuffix(l, sizeOf, d2, d3 + kept, now);
    FitsSuffix(l, sizeOf, d3, kept, now);
    JustEnoughTogether(l, sizeOf, d2, d3, kept, now);
    Regroup(d1, d2, d3, kept);
    JustEnoughTogether(l, sizeOf, d1, d2 + d3, kept, now);
  }

  lemma Gone(gone: seq<Record>, d1: seq<Record>, d2: seq<Record>)
    ensures (gone + d1) + d2 == gone + (d1 + d2)
  {
  }

  /** Evicting before the new record is written drops nothing that would not be dropped after. */
  lemma EvictedEarlier(
    l: Limits, sizeOf: Message -> nat, d1: seq<Record>, s: seq<Record>, pm: Record,
    d2: seq<Record>, kept: seq<Record>, now: int)
    requires d1 != [] ==> l.evict && !SizeFits(l, sizeOf, [d1[|d1| - 1]] + s)
    requires s + [pm] == d2 + kept && JustEnough(l, sizeOf, d2, kept, now)
    ensures JustEnough(l, sizeOf, d1 + d2, kept, now)
  {
    if d1 != [] {
      var more := [d1[|d1| - 1]] + s;
      TotalAppend(sizeOf, more, [pm]);
      assert more + [pm] == [d1[|d1| - 1]] + (d2 + kept);
    }
    JustEnoughTogether(l, sizeOf, d1, d2, kept, now);
  }

  /** A whole send, in one account of what was dropped. */
  lemma SendJustEnough(
    l: Limits, sizeOf: Message -> nat, gone: seq<Record>, s0: seq<Record>, d1: seq<Record>, s: seq<Record>, pm: Record,
    d2: seq<Record>, kept: seq<Record>, now: int)
    requires s0 == d1 + s && s + [pm] == d2 + kept
    requires d1 != [] ==> l.evict && !SizeFits(l, sizeOf, [d1[|d1| - 1]] + s)
    requires JustEnough(l, sizeOf, d2, kept, now)
    ensures JustEnough(l, sizeOf, d1 + d2, kept, now)
    ensures s0 + [pm] == (d1 + d2) + kept && (gone + d1) + d2 == gone + (d1 + d2)
    ensures (gone + (d1 + d2)) + kept == (gone + s0) + [pm]
  {
    EvictedEarlier(l, sizeOf, d1, s, pm, d2, kept, now);
    Gone(d1, s, [pm]);
    Gone(d1, d2, kept);
    Gone(gone, d1, d2);
    Gone(gone, d1 + d2, kept);
    Gone(gone, s0, [pm]);
  }

  /** A record with a new id joins with its file. */
  lemma {:induction false} MatchesWith(s: seq<Record>, files: map<int, Message>, pm: Record)
    requires Matches(s, files) && pm.id !in files
    ensures Matches(s + [pm], files[pm.id := pm.message])
  {
    var all := files[pm.id := pm.message];
    if s == [] {
      assert all - {pm.id} == map[];
    } else {
      MatchesWith(s[1..], files - {s[0].id}, pm);
      assert (s + [pm])[1..] == s[1..] + [pm];
      assert all - {s[0].id} == (files - {s[0].id})[pm.id := pm.message];
    }
  }

  lemma {:induction false} InTimeLater(s: seq<Record>, clock: int, now: int)
    requires InTime(s, clock) && clock <= now
    ensures InTime(s, now)
  {
    if s != [] {
      InTimeLater(s[1..], clock, now);
    }
  }

  lemma {:induction false} InTimeAll(s: seq<Record>, now: int)
    requires forall r :: r in s ==> r.created == now
    ensures InTime(s, now)
  {
    if s != [] {
      InTimeAll(s[1..], now);
    }
  }

  lemma YoungestFirst(s: seq<Record>, clock: int, cutoff: int)
    requires InTime(s, clock) && s != [] && s[0].created > cutoff
    ensures forall r :: r in s ==> r.created > cutoff
  {
    InTimeMeans(s, clock);
    forall r | r in s
      ensures r.created > cutoff
    {
      var i :| 0 <= i < |s| && s[i] == r;
    }
  }

  lemma {:induction false} InTimeWith(s: seq<Record>, clock: int, pm: Record)
    requires InTime(s, clock) && clock <= pm.created
    ensures InTime(s + [pm], pm.created)
  {
    if s != [] {
      InTimeWith(s[1..], clock, pm);
      assert (s + [pm])[1..] == s[1..] + [pm];
    }
  }

  // ---------------------------------------------------------------- opening a directory

  /** What adding up the files of an index gives: a record whose file is missing adds nothing. */
  function SizeOnDisk(sizeOf: Message -> nat, files: map<int, Message>, s: seq<Record>): nat {
    if s == [] then 0
    else SizeOnDisk(sizeOf, files, s[..|s| - 1]) + (if s[|s| - 1].id in files then sizeOf(files[s[|s| - 1].id]) else 0)
  }

  lemma {:induction false} SizeOnDiskIsTotal(sizeOf: Message -> nat, files: map<int, Message>, s: seq<Record>)
    requires forall r :: r in s ==> r.id in files && files[r.id] == r.message
    ensures SizeOnDisk(sizeOf, files, s) == Total(sizeOf, s)
  {
    if s != [] {
      var last := s[|s| - 1];
      assert last in s;
      SizeOnDiskIsTotal(sizeOf, files, s[..|s| - 1]);
      assert s == s[..|s| - 1] + [last];
      TotalAppend(sizeOf, s[..|s| - 1], [last]);
    }
  }

  /** Sizes add up, a file that is there counts with its size, and a record without a file counts nothing. */
  lemma {:induction false} SizeOnDiskMeans(
    sizeOf: Message -> nat, files: map<int, Message>, s: seq<Record>, t: seq<Record>, r: Record)
    ensures SizeOnDisk(sizeOf, files, s + t) == SizeOnDisk(sizeOf, files, s) + SizeOnDisk(sizeOf, files, t)
    ensures SizeOnDisk(sizeOf, files, [r]) == if r.id in files then sizeOf(files[r.id]) else 0
    decreases |t|
  {
    assert [r][..0] == [];
    if t == [] {
      assert s + t == s;
    } else {
      var n := |t| - 1;
      assert (s + t)[..|s + t| - 1] == s + t[..n];
      SizeOnDiskMeans(sizeOf, files, s, t[..n], r);
    }
  }

  /** A directory that a channel may have left behind, with any message files that its index does not name. */
  ghost predicate Consistent(disk: Disk, clock: int)
    reads disk
  {
    match disk.index
    case None => true
    case Some(Saved(m, n, _)) =>
      var live := disk.files - Unlisted(disk.files, m);
      Matches(m, live) && n >= 0 && (forall id :: id in live ==> id <= n) && InTime(m, clock)
    case Some(Corrupt) => true
  }

  /** The scan so far: the files that are no longer among the entries. */
  ghost predicate Listed(
    sizeOf: Message -> nat, files: map<int, Message>, entries: set<int>,
    msgs: seq<Record>, maxID: int, totalSize: int, now: int)
  {
    && Matches(msgs, files - entries) && totalSize == Total(sizeOf, msgs)
    && maxID >= 0 && (maxID == 0 || maxID in files)
    && (forall id :: id in files ==> id in entries || id <= maxID)
    && (forall r :: r in msgs ==> r.created == now)
  }

  lemma ListOne(
    sizeOf: Message -> nat, files: map<int, Message>, entries: set<int>,
    msgs: seq<Record>, maxID: int, totalSize: int, pm: Record)
    requires Listed(sizeOf, files, entries, msgs, maxID, totalSize, pm.created)
    requires entries <= files.Keys && pm.id in entries && pm.message == files[pm.id]
    ensures Listed(
      sizeOf, files, entries - {pm.id}, msgs + [pm], if pm.id > maxID then pm.id else maxID,
      totalSize + sizeOf(pm.message), pm.created)
  {
    MatchesWith(msgs, files - entries, pm);
    assert files - (entries - {pm.id}) == (files - entries)[pm.id := pm.message];
    TotalAppend(sizeOf, msgs, [pm]);
  }

  /** What a scan of the message files rebuilds: one record a file, the right size, the largest id. */
  ghost predicate Rebuilt(
    sizeOf: Message -> nat, files: map<int, Message>, messages: seq<Record>, nextID: int, currentSize: int, now: int)
  {
    && Matches(messages, files) && currentSize == Total(sizeOf, messages)
    && nextID >= 0 && (nextID == 0 || nextID in files) && (forall id :: id in files ==> id <= nextID)
    && (forall r :: r in messages ==> r.created == now)
  }

  lemma SomeEntry(entries: set<int>)
    ensures entries == {} || exists id: int :: id in entries
  {
    if forall id: int :: id !in entries {
      assert entries == {};
    }
  }

  lemma ListedAll(
    sizeOf: Message -> nat, files: map<int, Message>, msgs: seq<Record>, maxID: int, totalSize: int, now: int)
    requires Listed(sizeOf, files, {}, msgs, maxID, totalSize, now)
    ensures Rebuilt(sizeOf, files, msgs, maxID, totalSize, now)
  {
    assert files - {} == files;
  }

  // ---------------------------------------------------------------- the channel

  const DEFAULT_MAX_SIZE_MB: int := 100

  /** The limits of a configuration, the size in bytes. */
  function LimitsOf(maxSizeMB: int, evict: bool, maxMessages: int, maxAge: int): Limits {
    Limits((if maxSizeMB <= 0 then DEFAULT_MAX_SIZE_MB else maxSizeMB) * 1024 * 1024, evict, maxMessages, maxAge)
  }

  class Channel {
    const disk: Disk
    const limits: Limits
    var messages: seq<Record>
    var closed: bool
    var nextID: int
    var currentSize: int
    ghost var clock: int
    ghost var gone: seq<Record>
    ghost var orphans: set<int>   // message files that were there before, and that no record names

    /** The message files of the channel. */
    ghost function Live(): map<int, Message>
      reads this, disk
    {
      disk.files - orphans
    }

    /** Memory and message files agree. */
    ghost predicate Agrees()
      reads this, disk
    {
      && orphans <= disk.files.Keys && Matches(messages, Live())
      && currentSize == Total(disk.sizeOf, messages)
      && nextID >= 0 && (forall id :: id in Live() ==> id <= nextID)
      && InTime(messages, clock)
    }

    /** Loading the index that is on disk gives what is in memory. */
    ghost predicate Persisted()
      reads this, disk
    {
      match disk.index
      case None => messages == [] && nextID == 0 && !closed
      case Some(Saved(m, n, c)) => m == messages && n == nextID && c == closed
      case Some(Corrupt) => !closed && orphans == {} && (nextID == 0 || nextID in disk.files)
    }

    ghost predicate Valid()
      reads this, disk
    {
      Agrees() && Persisted()
    }

    /** Every message accepted since the directory was opened or emptied, in order of acceptance. */
    ghost function Log(): seq<Record>
      reads this
    {
      gone + messages
    }

    /** Opening a directory that a channel left behind gives a channel in good order. */
    constructor (disk: Disk, maxSizeMB: int, evict: bool, maxMessages: int, maxAge: int, now: int)
      ensures this.disk == disk
      ensures limits == LimitsOf(maxSizeMB, evict, maxMessages, maxAge)
      ensures limits == Limits((if maxSizeMB > 0 then maxSizeMB else 100) * 1048576, evict, maxMessages, maxAge)
      ensures Loaded(now) && Log() == messages && clock == now && orphans == Unlisted(disk.files, messages)
      ensures Consistent(disk, now) ==> Valid()
    {
      this.disk := disk;
      limits := LimitsOf(maxSizeMB, evict, maxMessages, maxAge);
      messages, closed, nextID, currentSize, clock, gone, orphans := [], false, 0, 0, now, [], {};
      new;
      LoadIndex(now);
    }

    /** What is in memory right after loading. */
    ghost predicate Loaded(now: int)
      reads this, disk
    {
      match disk.index
      case None => messages == [] && nextID == 0 && !closed && currentSize == 0
      case Some(Saved(m, n, c)) =>
        messages == m && nextID == n && closed == c && currentSize == SizeOnDisk(disk.sizeOf, disk.files, m)
      case Some(Corrupt) => Rebuilt(disk.sizeOf, disk.files, messages, nextID, currentSize, now) && !closed
    }

    method LoadIndex(now: int)
      requires !closed
      modifies `messages, `closed, `nextID, `currentSize, `orphans
      ensures Loaded(now) && orphans == Unlisted(disk.files, messages)
      ensures Consistent(disk, now) && clock == now ==> Valid()
    {
      match disk.index {
        case None =>
          messages, nextID, currentSize := [], 0, 0;
          orphans := Unlisted(disk.files, messages);
          assert Live() == map[];
        case Some(Corrupt) =>
          RecoverIndex(now);
          InTimeAll(messages, now);
          MatchesKeys(messages, disk.files);
          orphans := Unlisted(disk.files, messages);
          assert orphans == {} && Live() == disk.files;
        case Some(Saved(m, n, c)) =>
          messages, nextID, closed := m, n, c;
          currentSize := AddUp(m);
          orphans := Unlisted(disk.files, messages);
          if Matches(m, Live()) {
            MatchesMeans(m, Live());
            SizeOnDiskIsTotal(disk.sizeOf, disk.files, m);
          }
      }
    }

    /** The loop that calculates the size of what an index lists. */
    method AddUp(m: seq<Record>) returns (size: int)
      ensures size == SizeOnDisk(disk.sizeOf, disk.files, m)
    {
      size := 0;
      for i := 0 to |m|
        invariant size == SizeOnDisk(disk.sizeOf, disk.files, m[..i])
      {
        assert m[..i + 1][..i] == m[..i];
        if m[i].id in disk.files {
          size := size + disk.sizeOf(disk.files[m[i].id]);
        }
      }
      assert m[..|m|] == m;
    }

    /** Rebuilds the index from the message files, in whatever order they are listed. */
    method RecoverIndex(now: int)
      modifies `messages, `closed, `nextID, `currentSize
      ensures Rebuilt(disk.sizeOf, disk.files, messages, nextID, currentSize, now) && !closed
    {
      var msgs: seq<Record>, maxID, totalSize := [], 0, 0;
      var entries := disk.files.Keys;
      while entries != {}
        invariant entries <= disk.files.Keys
        invariant Listed(disk.sizeOf, disk.files, entries, msgs, maxID, totalSize, now)
        decreases |entries|
      {
        SomeEntry(entries);
        var id: int :| id in entries;
        var pm := Record(id, disk.files[id], now);
        ListOne(disk.sizeOf, disk.files, entries, msgs, maxID, totalSize, pm);
        if id > maxID {
          maxID := id;
        }
        totalSize := totalSize + disk.sizeOf(pm.message);
        msgs := msgs + [pm];
        entries := entries - {id};
      }
      ListedAll(disk.sizeOf, disk.files, msgs, maxID, totalSize, now);
      messages, nextID, currentSize, closed := msgs, maxID, totalSize, false;
    }

    method SaveIndex()
      modifies disk`index
      ensures Persisted() && disk.index == Some(Saved(messages, nextID, closed))
    {
      disk.index := Some(Saved(messages, nextID, closed));
    }

    method RemoveOldest()
      requires Agrees() && messages != []
      modifies `messages, `currentSize, `gone, disk
      ensures Agrees() && Persisted()
      ensures messages == old(messages)[1..] && gone == old(gone) + [old(messages)[0]]
      ensures disk.files == old(disk.files) - {old(messages)[0].id}
    {
      var pm := messages[0];
      if pm.id in disk.files {
        currentSize := currentSize - disk.sizeOf(disk.files[pm.id]);
      }
      assert (disk.files - {pm.id}) - orphans == (disk.files - orphans) - {pm.id};
      disk.files := disk.files - {pm.id};
      messages := messages[1..];
      gone := gone + [pm];
      SaveIndex();
    }

    method EnforceMaxMessages() returns (ghost d: seq<Record>)
      requires Agrees()
      modifies `messages, `currentSize, `gone, disk
      ensures Agrees() && (old(Persisted()) ==> Persisted())
      ensures old(messages) == d + messages && gone == old(gone) + d
      ensures CountFits(limits, messages) && (d != [] ==> !CountFits(limits, [d[|d| - 1]] + messages))
    {
      d := [];
      if limits.maxMessages <= 0 {
        return;
      }
      while |messages| > limits.maxMessages
        invariant Agrees() && (old(Persisted()) ==> Persisted())
        invariant old(messages) == d + messages && gone == old(gone) + d
        invariant d != [] ==> !CountFits(limits, [d[|d| - 1]] + messages)
      {
        DropOne(old(messages), old(gone), d, messages);
        d := d + [messages[0]];
        RemoveOldest();
      }
    }

    method EnforceMaxAge(now: int) returns (ghost d: seq<Record>)
      requires Agrees()
      modifies `messages, `currentSize, `gone, disk
      ensures Agrees() && (old(Persisted()) ==> Persisted())
      ensures old(messages) == d + messages && gone == old(gone) + d
      ensures AgeFits(limits, messages, now) && (d != [] ==> !AgeFits(limits, [d[|d| - 1]] + messages, now))
    {
      d := [];
      if limits.maxAge <= 0 {
        return;
      }
      var cutoff := now - limits.maxAge;
      while |messages| > 0
        invariant Agrees() && (old(Persisted()) ==> Persisted())
        invariant old(messages) == d + messages && gone == old(gone) + d
        invariant d != [] ==> !AgeFits(limits, [d[|d| - 1]] + messages, now)
        decreases |messages|
      {
        if messages[0].created > cutoff {
          YoungestFirst(messages, clock, cutoff);
          return;
        }
        assert messages[0] in messages;
        DropOne(old(messages), old(gone), d, messages);
        d := d + [messages[0]];
        RemoveOldest();
      }
    }

    method EvictUntilUnderSize() returns (ghost d: seq<Record>)
      requires Agrees()
      modifies `messages, `currentSize, `gone, disk
      ensures Agrees() && (old(Persisted()) ==> Persisted())
      ensures old(messages) == d + messages && gone == old(gone) + d
      ensures SizeFits(limits, disk.sizeOf, messages)
      ensures d != [] ==> !SizeFits(limits, disk.sizeOf, [d[|d| - 1]] + messages)
    {
      d := [];
      while |messages| > 0 && currentSize > limits.maxSize
        invariant Agrees() && (old(Persisted()) ==> Persisted())
        invariant old(messages) == d + messages && gone == old(gone) + d
        invariant d != [] ==> !SizeFits(limits, disk.sizeOf, [d[|d| - 1]] + messages)
        decreases |messages|
      {
        DropOne(old(messages), old(gone), d, messages);
        d := d + [messages[0]];
        RemoveOldest();
      }
    }

    /** Evicts by size only when that is configured and needed. */
    method EvictIfOver() returns (ghost d: seq<Record>)
      requires Agrees()
      modifies `messages, `currentSize, `gone, disk
      ensures Agrees() && (old(Persisted()) ==> Persisted())
      ensures old(messages) == d + messages && gone == old(gone) + d
      ensures limits.evict ==> SizeFits(limits, disk.sizeOf, messages)
      ensures d != [] ==> limits.evict && !SizeFits(limits, disk.sizeOf, [d[|d| - 1]] + messages)
    {
      d := [];
      if limits.evict && currentSize > limits.maxSize {
        d := EvictUntilUnderSize();
      }
    }

    /** One tick of the cleanup loop drops exactly what retention asks for. */
    method CleanupTick(now: int) returns (ghost d: seq<Record>)
      requires Valid() && clock <= now
      modifies `messages, `currentSize, `gone, disk
      ensures Valid() && old(messages) == d + messages && Log() == old(Log())
      ensures JustEnough(limits, disk.sizeOf, d, messages, now)
      ensures limits.maxMessages > 0 ==> |messages| <= limits.maxMessages
      ensures limits.maxAge > 0 ==> forall r :: r in messages ==> now - r.created < limits.maxAge
      ensures limits.evict && messages != [] ==> currentSize <= limits.maxSize
    {
      ghost var d1 := EnforceMaxAge(now);
      ghost var d2 := EnforceMaxMessages();
      ghost var d3 := EvictIfOver();
      Gone(old(gone), d1, d2);
      Gone(old(gone), d1 + d2, d3);
      TickJustEnough(limits, disk.sizeOf, d1, d2, d3, messages, now);
      d := d1 + d2 + d3;
      Gone(old(gone), d, messages);
    }

    /** The retention that follows a write. */
    method Retain(now: int) returns (ghost d: seq<Record>)
      requires Agrees()
      modifies `messages, `currentSize, `gone, disk
      ensures Agrees() && old(messages) == d + messages && gone == old(gone) + d && currentSize <= old(currentSize)
      ensures JustEnough(limits, disk.sizeOf, d, messages, now)
    {
      ghost var d1 := EnforceMaxMessages();
      ghost var d2 := EvictIfOver();
      ghost var d3 := EnforceMaxAge(now);
      Gone(old(gone), d1, d2);
      Gone(old(gone), d1 + d2, d3);
      RetainJustEnough(limits, disk.sizeOf, d1, d2, d3, messages, now);
      d := d1 + d2 + d3;
      TotalAppend(disk.sizeOf, d, messages);
    }

    /** The three ways a send is refused, in the order they are looked for. */
    ghost function Refusal(message: Message): Option<ChannelError>
      reads this
    {
      if Validate(message).Some? then Validate(message)
      else if closed then Some(ChannelClosed)
      else if currentSize >= limits.maxSize && !limits.evict then Some(SizeLimitExceeded)
      else None
    }

    /**
     A refused message changes nothing. An accepted one gets a file that no live message has: the only
     file it can overwrite is one that no record names. What is live afterwards is the longest suffix of
     the old live messages and the new one that meets the limits.
     */
    method Send(message: Message, created: int, now: int) returns (err: Option<ChannelError>, ghost d: seq<Record>)
      requires Valid() && clock <= created <= now
      modifies this, disk
      ensures Valid() && err == old(Refusal(message)) && closed == old(closed)
      ensures message.id == "" || message.kind == "" || message.source == "" || message.target == "" <==>
                err in {Some(InvalidMessageId), Some(InvalidMessageType), Some(InvalidSource), Some(InvalidTarget)}
      ensures message.id != "" && message.kind != "" && message.source != "" && message.target != "" ==>
                && (err == Some(ChannelClosed) <==> closed)
                && (err == Some(SizeLimitExceeded) <==> !closed && !limits.evict && old(currentSize) >= limits.maxSize)
                && (err == None <==> !closed && (limits.evict || old(currentSize) < limits.maxSize))
      ensures err.None? && limits.maxMessages > 0 ==> |messages| <= limits.maxMessages
      ensures err.None? && limits.maxAge > 0 ==> forall r :: r in messages ==> now - r.created < limits.maxAge
      ensures err.None? && limits.evict && messages != [] ==> currentSize <= limits.maxSize
      ensures err.Some? ==> messages == old(messages) && nextID == old(nextID) && currentSize == old(currentSize)
      ensures err.Some? ==> gone == old(gone) && disk.files == old(disk.files) && disk.index == old(disk.index)
      ensures orphans == if err.None? then old(orphans) - {nextID} else old(orphans)
      ensures err.None? ==> nextID == old(nextID) + 1 && (nextID in old(disk.files) <==> nextID in old(orphans))
      ensures err.None? ==> old(messages) + [Record(nextID, message, created)] == d + messages && gone == old(gone) + d
      ensures err.None? ==> JustEnough(limits, disk.sizeOf, d, messages, now)
      ensures err.None? ==> clock == now && disk.index == Some(Saved(messages, nextID, closed))
      ensures err.None? ==> Log() == old(Log()) + [Record(nextID, message, created)]
      ensures err.None? && !limits.evict ==> currentSize < limits.maxSize + disk.sizeOf(message)
    {
      d := [];
      assert nextID + 1 !in Live();
      assert nextID + 1 in disk.files <==> nextID + 1 in orphans;
      ValidateMeans(message);
      err := Validate(message);
      if err.Some? {
        return;
      }
      if closed {
        return Some(ChannelClosed), d;
      }
      if currentSize >= limits.maxSize {
        if limits.evict {
          d := EvictUntilUnderSize();
        } else {
          return Some(SizeLimitExceeded), d;
        }
      }
      d := Deliver(message, created, now, old(messages), old(gone), d);
    }

    /** The rest of a send, after `d1` has been evicted: write, retain, save. */
    method Deliver(message: Message, created: int, now: int,
                   ghost first: seq<Record>, ghost gone1: seq<Record>, ghost d1: seq<Record>)
      returns (ghost d: seq<Record>)
      requires Agrees() && clock <= created <= now && first == d1 + messages && gone == gone1 + d1
      requires d1 != [] ==> limits.evict && !SizeFits(limits, disk.sizeOf, [d1[|d1| - 1]] + messages)
      modifies this, disk
      ensures Valid() && nextID == old(nextID) + 1 && nextID !in old(Live()) && orphans == old(orphans) - {nextID}
      ensures closed == old(closed) && clock == now && disk.index == Some(Saved(messages, nextID, closed))
      ensures var pm := Record(nextID, message, created);
              first + [pm] == d + messages && gone == gone1 + d && Log() == (gone1 + first) + [pm]
      ensures JustEnough(limits, disk.sizeOf, d, messages, now)
      ensures currentSize <= old(currentSize) + disk.sizeOf(message)
    {
      ghost var before := messages;
      ghost var d2 := Accept(message, created, now);
      ghost var pm := Record(nextID, message, created);
      SendJustEnough(limits, disk.sizeOf, gone1, first, d1, before, pm, d2, messages, now);
      d := d1 + d2;
      SaveIndex();
    }

    /** Writes a message under the next id, then applies retention. */
    method Accept(message: Message, created: int, now: int) returns (ghost d: seq<Record>)
      requires Agrees() && clock <= created <= now
      modifies `messages, `currentSize, `nextID, `gone, `clock, `orphans, disk
      ensures Agrees() && nextID == old(nextID) + 1 && nextID !in old(Live()) && orphans == old(orphans) - {nextID}
      ensures old(messages) + [Record(nextID, message, created)] == d + messages && gone == old(gone) + d
      ensures currentSize <= old(currentSize) + disk.sizeOf(message) && clock == now
      ensures JustEnough(limits, disk.sizeOf, d, messages, now)
    {
      nextID := nextID + 1;
      WriteAndAppend(Record(nextID, message, created));
      InTimeLater(messages, clock, now);
      clock := now;
      d := Retain(now);
    }

    /** Writes the message file, counts its size and appends the record. */
    method WriteAndAppend(pm: Record)
      requires Agrees() && pm.id !in Live() && pm.id <= nextID && clock <= pm.created
      modifies `messages, `currentSize, `clock, `orphans, disk`files
      ensures Agrees() && orphans == old(orphans) - {pm.id} && messages == old(messages) + [pm] && clock == pm.created
      ensures currentSize == old(currentSize) + disk.sizeOf(pm.message)
      ensures disk.files == old(disk.files)[pm.id := pm.message]
    {
      MatchesWith(messages, Live(), pm);
      TotalAppend(disk.sizeOf, messages, [pm]);
      InTimeWith(messages, clock, pm);
      clock := pm.created;
      assert disk.files[pm.id := pm.message] - (orphans - {pm.id}) == Live()[pm.id := pm.message];
      disk.files := disk.files[pm.id := pm.message];
      orphans := orphans - {pm.id};
      currentSize := currentSize + disk.sizeOf(disk.files[pm.id]);
      messages := messages + [pm];
    }

    /** A closed channel refuses even when messages remain; otherwise the oldest live one is taken. */
    method Receive() returns (r: Result<Message, ChannelError>)
      requires Valid()
      modifies `messages, `currentSize, `gone, disk
      ensures Valid() && Log() == old(Log())
      ensures r.Failure? <==> closed || old(messages) == []
      ensures r.Failure? ==> r.error == (if closed then ChannelClosed else ChannelEmpty)
      ensures r.Failure? ==>
              messages == old(messages) && currentSize == old(currentSize) && disk.files == old(disk.files)
      ensures r.Success? ==> old(messages) == [old(messages)[0]] + messages && r.value == old(messages)[0].message
      ensures r.Success? ==> disk.files == old(disk.files) - {old(messages)[0].id}
    {
      if closed {
        return Failure(ChannelClosed);
      }
      if |messages| == 0 {
        return Failure(ChannelEmpty);
      }
      var message := disk.files[messages[0].id];
      RemoveOldest();
      return Success(message);
    }

    method Close()
      requires Valid()
      modifies `closed, disk`index
      ensures Valid() && closed && disk.index == Some(Saved(messages, nextID, true))
    {
      if closed {
        return;
      }
      closed := true;
      SaveIndex();
    }

    /** Removes every message file and starts numbering, and the log, again. */
    method Cleanup()
      requires Valid()
      modifies `messages, `currentSize, `nextID, `gone, disk
      ensures Valid() && messages == [] && nextID == 0 && currentSize == 0 && disk.files.Keys == orphans && Log() == []
      ensures disk.index == Some(Saved([], 0, closed))
      ensures forall id :: id in orphans ==> id in old(disk.files) && disk.files[id] == old(disk.files)[id]
    {
      var i := 0;
      while i < |messages|
        invariant 0 <= i <= |messages|
        invariant orphans <= disk.files.Keys && Matches(messages[i..], Live())
        invariant forall id :: id in orphans ==> id in old(disk.files) && disk.files[id] == old(disk.files)[id]
        modifies disk`files
      {
        assert messages[i..][1..] == messages[i + 1..];
        assert (disk.files - {messages[i].id}) - orphans == Live() - {messages[i].id};
        disk.files := disk.files - {messages[i].id};
        i := i + 1;
      }
      assert messages[i..] == [];
      LeftOut([], disk.files, orphans);
      messages, currentSize, nextID, gone := [], 0, 0, [];
      assert Agrees();
      SaveIndex();
    }
  }

  // ---------------------------------------------------------------- reopening

  /** What may have happened to the index file since the channel last wrote it. */
  datatype Fate = Intact | Unreadable | Missing

  /** The identifiers and messages, whatever their order and creation times. */
  function Contents(s: seq<Record>): set<(int, Message)> {
    set r | r in s :: (r.id, r.message)
  }

  lemma InContents(s: seq<Record>, live: map<int, Message>, id: int, m: Message)
    requires Matches(s, live)
    ensures (id, m) in Contents(s) <==> id in live && live[id] == m
  {
    MatchesMeans(s, live);
    if id in live && live[id] == m {
      assert HasId(s, id);
      var r :| r in s && r.id == id;
      assert (r.id, r.message) in Contents(s);
    }
  }

  /** Of two lists of records over the same files, the one that leaves fewer files out has more contents. */
  lemma MoreContents(s: seq<Record>, t: seq<Record>, files: map<int, Message>, a: set<int>, b: set<int>)
    requires a <= files.Keys && b <= files.Keys && Matches(s, files - a) && Matches(t, files - b)
    ensures a <= b <==> Contents(t) <= Contents(s)
  {
    forall id, m
      ensures (id, m) in Contents(s) <==> id in files && id !in a && files[id] == m
      ensures (id, m) in Contents(t) <==> id in files && id !in b && files[id] == m
    {
      InContents(s, files - a, id, m);
      InContents(t, files - b, id, m);
    }
    if Contents(t) <= Contents(s) {
      forall id | id in a
        ensures id in b
      {
        assert (id, files[id]) !in Contents(s);
      }
    }
  }

  /** Two lists of records over the same files: same contents, and so same size, iff the same files are left out. */
  lemma Compare(
    sizeOf: Message -> nat, s: seq<Record>, t: seq<Record>, files: map<int, Message>, a: set<int>, b: set<int>)
    requires a <= files.Keys && b <= files.Keys && Matches(s, files - a) && Matches(t, files - b)
    ensures Contents(s) == Contents(t) <==> a == b
    ensures a == b ==> Total(sizeOf, s) == Total(sizeOf, t)
    ensures a <= b ==> Contents(t) <= Contents(s)
  {
    MoreContents(s, t, files, a, b);
    MoreContents(t, s, files, b, a);
    if a == b {
      TotalIsOfTheFiles(sizeOf, s, t, files - a);
    }
  }

  /** No message file is left out iff there are records for all of them, every file iff there is no record. */
  lemma LeftOut(s: seq<Record>, files: map<int, Message>, orphans: set<int>)
    requires orphans <= files.Keys && Matches(s, files - orphans)
    ensures orphans == files.Keys <==> s == []
    ensures orphans == {} ==> files - orphans == files
  {
    MatchesKeys(s, files - orphans);
    assert (files - orphans).Keys == files.Keys - orphans;
    if s != [] {
      assert s[0].id in Ids(s);
    } else {
      assert (files - orphans).Keys == {};
      assert forall id :: id in files.Keys ==> id in orphans || id in (files - orphans).Keys;
    }
  }

  /** What the channel opened after `fate` leaves out, and where it goes on numbering. */
  ghost predicate Reopened(c: Channel, again: Channel, fate: Fate, was: Option<Index>)
    reads c, again
  {
    match fate
    case Intact =>
      && again.orphans == c.orphans && again.closed == c.closed && again.nextID == c.nextID
      && (was != Some(Corrupt) ==> again.messages == c.messages)
    case Unreadable => again.orphans == {} && !again.closed
    case Missing => again.messages == [] && again.nextID == 0 && !again.closed
  }

  /** A channel in good order leaves a directory in good order, with its own left-over files. */
  lemma LeavesConsistent(c: Channel, now: int)
    requires c.Valid() && c.clock <= now
    ensures Consistent(c.disk, now) && c.orphans == Unlisted(c.disk.files, c.messages)
    ensures c.messages == [] <==> c.orphans == c.disk.files.Keys
    ensures c.orphans == {} ==> c.Live() == c.disk.files
  {
    InTimeLater(c.messages, c.clock, now);
    OrphansAre(c.messages, c.disk.files, c.orphans);
    LeftOut(c.messages, c.disk.files, c.orphans);
  }

  method OpenIntact(c: Channel, maxSizeMB: int, evict: bool, maxMessages: int, maxAge: int, now: int)
    returns (again: Channel)
    requires c.Valid() && c.clock <= now
    ensures fresh(again) && again.disk == c.disk && again.clock == now
    ensures again.limits == LimitsOf(maxSizeMB, evict, maxMessages, maxAge)
    ensures again.Valid() && Reopened(c, again, Intact, c.disk.index)
  {
    LeavesConsistent(c, now);
    again := new Channel(c.disk, maxSizeMB, evict, maxMessages, maxAge, now);
    OrphansAre(again.messages, c.disk.files, again.orphans);
  }

  method OpenDamaged(disk: Disk, maxSizeMB: int, evict: bool, maxMessages: int, maxAge: int, now: int)
    returns (again: Channel)
    requires disk.index == None || disk.index == Some(Corrupt)
    ensures fresh(again) && again.disk == disk && again.clock == now && !again.closed && again.Valid()
    ensures again.limits == LimitsOf(maxSizeMB, evict, maxMessages, maxAge)
    ensures disk.index == None ==> again.messages == [] && again.nextID == 0 && again.orphans == disk.files.Keys
    ensures disk.index == Some(Corrupt) ==> again.orphans == {} && (again.nextID == 0 || again.nextID in disk.files)
  {
    again := new Channel(disk, maxSizeMB, evict, maxMessages, maxAge, now);
  }

  /** Opening the directory that a channel left behind gives a channel in good order, whatever happened to its index. */
  method OpenAfter(c: Channel, fate: Fate, maxSizeMB: int, evict: bool, maxMessages: int, maxAge: int, now: int)
    returns (again: Channel)
    requires c.Valid() && c.clock <= now
    modifies c.disk`index
    ensures fresh(again) && again.disk == c.disk && c.disk.files == old(c.disk.files) && again.clock == now
    ensures again.limits == LimitsOf(maxSizeMB, evict, maxMessages, maxAge)
    ensures c.Agrees() && again.Valid() && Reopened(c, again, fate, old(c.disk.index))
    ensures fate.Unreadable? ==> again.nextID == 0 || again.nextID in c.disk.files
    ensures fate.Missing? ==> again.orphans == c.disk.files.Keys
  {
    match fate {
      case Intact =>
        again := OpenIntact(c, maxSizeMB, evict, maxMessages, maxAge, now);
      case Unreadable =>
        c.disk.index := Some(Corrupt);
        again := OpenDamaged(c.disk, maxSizeMB, evict, maxMessages, maxAge, now);
      case Missing =>
        c.disk.index := None;
        again := OpenDamaged(c.disk, maxSizeMB, evict, maxMessages, maxAge, now);
    }
  }

  /**
   Opening the directory that a channel left behind gives the same messages, up to their order and
   creation times, exactly when the index is intact, or unreadable and the channel's messages were the
   only message files, or missing and the channel was empty. An intact or unreadable index keeps
   every message; a missing one leaves every message file to be overwritten.
   */
  method Reopen(c: Channel, fate: Fate, maxSizeMB: int, evict: bool, maxMessages: int, maxAge: int, now: int)
    returns (again: Channel)
    requires c.Valid() && c.clock <= now
    modifies c.disk`index
    ensures again.Valid() && again.disk == c.disk && c.disk.files == old(c.disk.files)
    ensures again.limits == LimitsOf(maxSizeMB, evict, maxMessages, maxAge) && again.clock == now
    ensures Reopened(c, again, fate, old(c.disk.index))
    ensures Contents(again.messages) == Contents(c.messages) <==>
              || fate.Intact?
              || (fate.Unreadable? && c.orphans == {})
              || (fate.Missing? && c.messages == [])
    ensures Contents(again.messages) == Contents(c.messages) ==> again.currentSize == c.currentSize
    ensures !fate.Missing? ==> Contents(c.messages) <= Contents(again.messages)
    ensures fate.Missing? ==> again.orphans == c.disk.files.Keys
    ensures fate.Unreadable? ==> again.nextID == 0 || again.nextID in c.disk.files
  {
    again := OpenAfter(c, fate, maxSizeMB, evict, maxMessages, maxAge, now);
    Compare(c.disk.sizeOf, again.messages, c.messages, c.disk.files, again.orphans, c.orphans);
    LeftOut(again.messages, c.disk.files, again.orphans);
    LeftOut(c.messages, c.disk.files, c.orphans);
  }

  /** Without limits that are switched on, the first message of an empty channel is all there is. */
  lemma NothingDropped(l: Limits, sizeOf: Message -> nat, pm: Record, d: seq<Record>, kept: seq<Record>, now: int)
    requires JustEnough(l, sizeOf, d, kept, now) && !l.evict && l.maxMessages == 0 && l.maxAge == 0
    requires [] + [pm] == d + kept
    ensures kept == [pm]
  {
    assert d == [];
    assert d + kept == kept;
  }

  lemma OneFile(pm: Record, files: map<int, Message>, orphans: set<int>)
    requires orphans <= files.Keys && Matches([pm], files - orphans)
    ensures files.Keys == orphans + {pm.id} && files[pm.id] == pm.message
  {
    var live := files - orphans;
    assert [pm][1..] == [];
    assert live - {pm.id} == map[];
    assert forall id :: id in files.Keys ==> id in orphans || id == pm.id || id in (live - {pm.id}).Keys;
  }

  /** The first message of an empty channel without retention limits. */
  method SendFirst(c: Channel, m: Message)
    requires c.Valid() && c.messages == [] && c.nextID == 0 && !c.closed && c.clock <= 0 && Validate(m).None?
    requires c.limits == LimitsOf(1, false, 0, 0)
    modifies c, c.disk
    ensures c.Valid() && c.messages == [Record(1, m, 0)] && c.nextID == 1 && !c.closed && c.clock <= 0
    ensures c.orphans == old(c.orphans) - {1} && c.disk.index == Some(Saved(c.messages, 1, false))
  {
    assert Total(c.disk.sizeOf, []) == 0 < c.limits.maxSize;
    assert c.Refusal(m) == None;
    var err, d := c.Send(m, 0, 0);
    NothingDropped(c.limits, c.disk.sizeOf, Record(1, m, 0), d, c.messages, 0);
  }

  /** A new channel with one message. */
  method OneMessage(sizeOf: Message -> nat, m: Message) returns (c: Channel)
    requires Validate(m).None?
    ensures fresh(c) && fresh(c.disk) && c.Valid() && c.messages == [Record(1, m, 0)] && c.clock <= 0
    ensures c.orphans == {} && c.disk.files == map[1 := m]
  {
    var disk := new Disk(sizeOf);
    c := new Channel(disk, 1, false, 0, 0, 0);
    SendFirst(c, m);
    OneFile(Record(1, m, 0), disk.files, c.orphans);
  }

  /**
   The failing input: a channel with one message loses its index. The channel opened on its directory
   is empty, although the message file is there, and the next message overwrites it.
   */
  method LostIndexOverwrites(sizeOf: Message -> nat, m: Message, m': Message) returns (disk: Disk, again: Channel)
    requires Validate(m).None? && Validate(m').None?
    ensures disk.files == map[1 := m'] && again.Valid() && again.disk == disk
    ensures again.messages == [Record(1, m', 0)] && disk.index == Some(Saved(again.messages, 1, false))
  {
    var c := OneMessage(sizeOf, m);
    disk := c.disk;
    again := OpenAfter(c, Missing, 1, false, 0, 0, 0);
    assert again.orphans == {1};
    SendFirst(again, m');
    OneFile(Record(1, m', 0), disk.files, again.orphans);
  }
}
