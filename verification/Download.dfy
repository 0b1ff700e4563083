/** A download of timetable objects, listed pass by pass for as long as new ones appear: whatever order those in
    flight complete in, the listings and the objects decide how it ends. */
module CzpttDownload {
  import opened Model
  import opened Lexical

  datatype Item = Item(path: string, url: string, kind: string)
  datatype Record = Record(path: string, kind: string, digest: string)

  /** The successive listings of the source, what an object downloads as, if it does, and whether what was
      downloaded is a valid object. */
  datatype Site = Site(listing: nat -> seq<Item>, fetch: Item -> Option<Record>, valid: Record -> bool)

  const MAX_PASSES := 5

  function Paths(items: seq<Item>): set<string> {
    set i | i in items :: i.path
  }

  ghost predicate PathsUnique(items: seq<Item>) {
    forall i, j | 0 <= i < j < |items| :: items[i].path != items[j].path
  }

  /** A listing names no object twice, and an object is recorded under its path. */
  ghost predicate Proper(site: Site) {
    && (forall k: nat :: PathsUnique(site.listing(k)))
    && forall item :: site.fetch(item).Some? ==> site.fetch(item).value.path == item.path
  }

  // ----- one pass ------------------------------------------------------------------------------

  predicate AllFetched(site: Site, items: seq<Item>) {
    forall item <- items :: site.fetch(item).Some?
  }

  function Fetched(site: Site, items: seq<Item>): (r: seq<Record>)
    requires AllFetched(site, items)
    ensures |r| == |items|
  {
    seq(|items|, i requires 0 <= i < |items| => site.fetch(items[i]).value)
  }

  /** The records of the objects `done` among the first `n`. */
  function DoneAmong(site: Site, items: seq<Item>, n: nat, done: set<int>): multiset<Record>
    requires n <= |items| && forall k <- done :: 0 <= k < |items| && site.fetch(items[k]).Some?
  {
    if n == 0 then multiset{}
    else DoneAmong(site, items, n - 1, done) + if n - 1 in done then multiset{site.fetch(items[n - 1]).value} else multiset{}
  }

  lemma {:induction false} DoneMore(site: Site, items: seq<Item>, n: nat, done: set<int>, k: int)
    requires n <= |items| && forall k <- done :: 0 <= k < |items| && site.fetch(items[k]).Some?
    requires 0 <= k < |items| && k !in done && site.fetch(items[k]).Some?
    ensures DoneAmong(site, items, n, done + {k}) ==
            DoneAmong(site, items, n, done) + if k < n then multiset{site.fetch(items[k]).value} else multiset{}
  {
    if n > 0 {
      DoneMore(site, items, n - 1, done, k);
      if n - 1 == k {
        assert n - 1 !in done;
      } else {
        assert n - 1 in done + {k} <==> n - 1 in done;
      }
    }
  }

  lemma {:induction false} DoneNone(site: Site, items: seq<Item>, n: nat)
    requires n <= |items|
    ensures DoneAmong(site, items, n, {}) == multiset{}
  {
    if n > 0 {
      DoneNone(site, items, n - 1);
    }
  }

  lemma {:induction false} DoneAll(site: Site, items: seq<Item>, n: nat, done: set<int>)
    requires n <= |items| && AllFetched(site, items) && forall k :: k in done <==> 0 <= k < |items|
    ensures DoneAmong(site, items, n, done) == multiset(Fetched(site, items)[..n])
  {
    if n > 0 {
      DoneAll(site, items, n - 1, done);
      assert Fetched(site, items)[..n] == Fetched(site, items)[..n - 1] + [Fetched(site, items)[n - 1]];
    }
  }

  /** The downloads in flight, by number; `done` have completed, and numbers from `next` on wait. */
  ghost predicate InFlight(items: seq<Item>, next: int, flying: set<int>, done: set<int>, window: int) {
    && 0 <= next <= |items| && flying !! done
    && (forall k :: k in flying || k in done <==> 0 <= k < next)
    && |flying| <= window && (next < |items| ==> |flying| == window)
  }

  /** The records are those of the downloads done. */
  ghost predicate Holds(site: Site, items: seq<Item>, records: seq<Record>, done: set<int>) {
    && (forall k <- done :: 0 <= k < |items| && site.fetch(items[k]).Some?)
    && multiset(records) == DoneAmong(site, items, |items|, done)
  }

  lemma SomeLeft(left: set<int>)
    ensures (forall k :: k !in left) ==> left == {}
  {
    if forall k :: k !in left {
      assert left == {};
    }
  }

  /** Take what has finished, in any order, and start a waiting download for each. */
  method TakeFinished(site: Site, items: seq<Item>, finished: set<int>, flying: set<int>, start: int, before: seq<Record>, ghost was: set<int>, window: int)
    returns (failed: bool, pending: set<int>, next: int, records: seq<Record>, ghost done: set<int>)
    requires finished !! flying && InFlight(items, start, flying + finished, was, window) && Holds(site, items, before, was)
    ensures failed ==> !AllFetched(site, items)
    ensures !failed ==> InFlight(items, next, pending, done, window) && Holds(site, items, records, done)
    ensures !failed ==> |records| == |before| + |finished| && |pending| <= |flying| + |finished|
  {
    failed, pending, next, records, done := false, flying, start, before, was;
    var left := finished;
    while left != {}
      invariant left <= finished && pending !! left && !failed
      invariant InFlight(items, next, pending + left, done, window) && Holds(site, items, records, done)
      invariant |records| + |left| == |before| + |finished| && |pending| + |left| <= |flying| + |finished|
    {
      SomeLeft(left);
      var k :| k in left;
      var record := site.fetch(items[k]);
      if record.None? {
        assert items[k] in items;
        return true, pending, next, records, done;
      }
      LandOne(site, items, next, pending, left, done, window, k);
      DoneMore(site, items, |items|, done, k);
      left := left - {k};
      records := records + [record.value];
      done := done + {k};
      if next < |items| {
        pending := pending + {next};
        next := next + 1;
      }
    }
    assert pending + left == pending;
  }

  lemma LandOne(site: Site, items: seq<Item>, next: int, pending: set<int>, left: set<int>, done: set<int>, window: int, k: int)
    requires pending !! left && k in left && InFlight(items, next, pending + left, done, window)
    ensures next < |items| ==>
              InFlight(items, next + 1, (pending + {next}) + (left - {k}), done + {k}, window) && (pending + {next}) !! (left - {k})
    ensures next == |items| ==> InFlight(items, next, pending + (left - {k}), done + {k}, window)
  {
    assert pending + (left - {k}) == (pending + left) - {k};
    if next < |items| {
      assert next !in pending + left;
      assert (pending + {next}) + (left - {k}) == ((pending + left) - {k}) + {next};
    }
  }

  /** The most downloads of a pass in flight at once: twice the connections, or all objects if fewer. */
  function Window(items: seq<Item>, connections: nat): nat {
    if |items| < 2 * connections then |items| else 2 * connections
  }

  /** The first downloads, started before any is waited for. */
  method StartFirst(items: seq<Item>, connections: nat) returns (pending: set<int>, next: int)
    ensures InFlight(items, next, pending, {}, 2 * connections) && |pending| == Window(items, connections)
  {
    next, pending := 0, {};
    for i := 0 to 2 * connections
      invariant InFlight(items, next, pending, {}, i) && |pending| == next
    {
      if next == |items| {
        return;
      }
      pending := pending + {next};
      next := next + 1;
    }
  }

  /** Download the objects, completing in any order; `most` is the most in flight when waiting for one. */
  method FetchAll(site: Site, items: seq<Item>, connections: nat) returns (r: Option<seq<Record>>, ghost most: nat)
    requires connections > 0
    ensures most == Window(items, connections)
    ensures r.Some? <==> AllFetched(site, items)
    ensures r.Some? ==> multiset(r.value) == multiset(Fetched(site, items))
  {
    var pending, next := StartFirst(items, connections);
    most := 0;
    DoneNone(site, items, |items|);
    var records: seq<Record> := [];
    ghost var done: set<int> := {};
    while pending != {}
      invariant InFlight(items, next, pending, done, 2 * connections) && Holds(site, items, records, done)
      invariant most == if records == [] then 0 else Window(items, connections)
      invariant |pending| <= Window(items, connections) && (records == [] ==> |pending| == Window(items, connections))
      invariant |records| <= |items|
      decreases |items| - |records|
    {
      most := if |pending| > most then |pending| else most;
      var finished :| finished <= pending && finished != {};
      assert pending == (pending - finished) + finished;
      var failed;
      failed, pending, next, records, done := TakeFinished(site, items, finished, pending - finished, next, records, done, 2 * connections);
      if failed {
        return None, most;
      }
      RecordsLanded(site, items, |items|, done);
    }
    DoneAll(site, items, |items|, done);
    assert Fetched(site, items)[..|items|] == Fetched(site, items);
    return Some(records), most;
  }

  lemma {:induction false} RecordsLanded(site: Site, items: seq<Item>, n: nat, done: set<int>)
    requires n <= |items| && forall k <- done :: 0 <= k < |items| && site.fetch(items[k]).Some?
    ensures |DoneAmong(site, items, n, done)| <= n
  {
    if n > 0 {
      RecordsLanded(site, items, n - 1, done);
    }
  }

  // ----- passes --------------------------------------------------------------------------------

  function Without(items: seq<Item>, paths: set<string>): (r: seq<Item>)
    ensures forall item :: item in r <==> item in items && item.path !in paths
  {
    if items == [] then []
    else
      var front, last := Without(items[..|items| - 1], paths), items[|items| - 1];
      assert items == items[..|items| - 1] + [last];
      if last.path in paths then front else front + [last]
  }

  /** What the `pass`-th pass downloads: the first listing, then what the last one added. */
  function ToDownload(site: Site, pass: nat): seq<Item>
    requires pass >= 1
  {
    if pass == 1 then site.listing(0) else Without(site.listing(pass - 1), Paths(site.listing(pass - 2)))
  }

  function Downloaded(site: Site, pass: nat): seq<Item> {
    if pass == 0 then [] else Downloaded(site, pass - 1) + ToDownload(site, pass)
  }

  /** Every object of the pass downloads and is valid. */
  predicate PassSucceeds(site: Site, pass: nat)
    requires pass >= 1
  {
    AllFetched(site, ToDownload(site, pass)) && forall item <- ToDownload(site, pass) :: site.valid(site.fetch(item).value)
  }

  function Gone(site: Site, pass: nat): set<string>
    requires pass >= 1
  {
    Paths(site.listing(pass - 1)) - Paths(site.listing(pass))
  }

  function Added(site: Site, pass: nat): set<string>
    requires pass >= 1
  {
    Paths(site.listing(pass)) - Paths(site.listing(pass - 1))
  }

  /** A pass that succeeds, loses nothing and finds something new. */
  ghost predicate Continues(site: Site, pass: nat)
    requires pass >= 1
  {
    PassSucceeds(site, pass) && Gone(site, pass) == {} && Added(site, pass) != {}
  }

  ghost predicate Reaches(site: Site, pass: nat) {
    forall p: nat | 1 <= p < pass :: Continues(site, p)
  }

  datatype Outcome =
    | Done(records: seq<Record>)
    | Failed
    | Disappeared(paths: set<string>)
    | KeptGrowing(paths: set<string>)

  ghost predicate ByPath(records: seq<Record>) {
    forall i, j | 0 <= i < j < |records| :: StringLess(records[i].path, records[j].path)
  }

  /** What the listings and objects decide: the pass that ends the download and how. */
  ghost predicate EndsAt(site: Site, pass: nat, r: Outcome)
    requires pass >= 1
  {
    && pass <= MAX_PASSES && Reaches(site, pass)
    && (r.Failed? <==> !PassSucceeds(site, pass))
    && (PassSucceeds(site, pass) ==>
          if Gone(site, pass) != {} then r == Disappeared(Gone(site, pass))
          else if Added(site, pass) == {} then
            && r.Done? && ByPath(r.records)
            && forall record :: record in r.records <==> exists item <- Downloaded(site, pass) :: site.fetch(item) == Some(record)
          else pass == MAX_PASSES && r == KeptGrowing(Added(site, pass)))
  }

  // ----- sorting -------------------------------------------------------------------------------

  ghost predicate RecordsUnique(records: seq<Record>) {
    forall i, j | 0 <= i < j < |records| :: records[i].path != records[j].path
  }

  lemma InsertRecord(s: seq<Record>, r: Record, k: int)
    requires ByPath(s) && 0 <= k <= |s| && forall x <- s :: x.path != r.path
    requires (forall i | 0 <= i < k :: StringLess(s[i].path, r.path)) && (k < |s| ==> !StringLess(s[k].path, r.path))
    ensures var s' := s[..k] + [r] + s[k..]; ByPath(s') && forall x :: x in s' <==> x in s || x == r
  {
    StringOrder();
    var s' := s[..k] + [r] + s[k..];
    forall j | k <= j < |s| ensures StringLess(r.path, s[j].path) {
      assert s[k] in s;
      assert k < j ==> StringLess(s[k].path, s[j].path);
    }
    forall x ensures x in s' <==> x in s || x == r {
      if x in s {
        var i :| 0 <= i < |s| && s[i] == x;
        assert s'[if i < k then i else i + 1] == x;
      }
      assert s'[k] == r;
    }
  }

  /** The records by path. */
  method SortRecords(records: seq<Record>) returns (sorted: seq<Record>)
    requires RecordsUnique(records)
    ensures ByPath(sorted) && forall x :: x in sorted <==> x in records
  {
    sorted := [];
    for n := 0 to |records|
      invariant ByPath(sorted) && forall x :: x in sorted <==> x in records[..n]
    {
      assert records[..n + 1] == records[..n] + [records[n]];
      forall x | x in sorted ensures x.path != records[n].path {
        var i :| 0 <= i < n && records[i] == x;
      }
      var k := 0;
      while k < |sorted| && StringLess(sorted[k].path, records[n].path)
        invariant 0 <= k <= |sorted| && forall i | 0 <= i < k :: StringLess(sorted[i].path, records[n].path)
      {
        k := k + 1;
      }
      InsertRecord(sorted, records[n], k);
      sorted := sorted[..k] + [records[n]] + sorted[k..];
    }
    assert records[..|records|] == records;
  }

  lemma {:induction false} ByPathUnique(a: seq<Record>, b: seq<Record>)
    requires ByPath(a) && ByPath(b) && forall x :: x in a <==> x in b
    ensures a == b
  {
    HasFirst(a);
    HasFirst(b);
    if a != [] && b != [] {
      StringOrder();
      var i :| 0 <= i < |b| && b[i] == a[0];
      var j :| 0 <= j < |a| && a[j] == b[0];
      assert a[0] == b[0];
      var a', b' := a[1..], b[1..];
      forall x ensures x in a' <==> x in b' {
        if x in a' {
          var k :| 0 <= k < |a'| && a'[k] == x;
          assert a[k + 1] == x && StringLess(a[0].path, x.path) && x in b;
        }
        if x in b' {
          var k :| 0 <= k < |b'| && b'[k] == x;
          assert b[k + 1] == x && StringLess(b[0].path, x.path) && x in a;
        }
      }
      ByPathUnique(a', b');
    }
  }

  lemma HasFirst<T>(s: seq<T>)
    ensures s != [] ==> s[0] in s
  {
  }

  // ----- the whole download --------------------------------------------------------------------

  lemma EndsOnce(site: Site, p: nat, r: Outcome)
    requires p >= 1 && EndsAt(site, p, r)
    ensures p == MAX_PASSES || !Continues(site, p)
  {
  }

  /** Only one pass can end the download, and only one way: no order of completion changes the outcome. */
  lemma OutcomeUnique(site: Site, p: nat, a: Outcome, q: nat, b: Outcome)
    requires p >= 1 && q >= 1 && EndsAt(site, p, a) && EndsAt(site, q, b)
    ensures p == q && a == b
  {
    EndsOnce(site, p, a);
    EndsOnce(site, q, b);
    assert p == q;
    if a.Done? {
      forall x ensures x in a.records <==> x in b.records {
      }
      ByPathUnique(a.records, b.records);
    }
  }

  lemma WithoutUnique(items: seq<Item>, paths: set<string>)
    requires PathsUnique(items)
    ensures PathsUnique(Without(items, paths))
  {
    if items != [] {
      var front, last := items[..|items| - 1], items[|items| - 1];
      assert items == front + [last];
      WithoutUnique(front, paths);
      var kept := Without(front, paths);
      forall i | 0 <= i < |kept| ensures kept[i].path != last.path {
        assert kept[i] in front;
        var j :| 0 <= j < |front| && front[j] == kept[i];
        assert items[j] == front[j];
      }
    }
  }

  lemma PathsJoined(a: seq<Item>, b: seq<Item>)
    requires PathsUnique(a) && PathsUnique(b) && Paths(a) !! Paths(b)
    ensures PathsUnique(a + b) && Paths(a + b) == Paths(a) + Paths(b)
  {
    forall i, j | 0 <= i < j < |a + b| ensures (a + b)[i].path != (a + b)[j].path {
      if j < |a| {
        assert (a + b)[i] == a[i] && (a + b)[j] == a[j];
      } else if i < |a| {
        assert a[i] in a && b[j - |a|] in b;
        assert a[i].path in Paths(a) && b[j - |a|].path in Paths(b);
      } else {
        assert (a + b)[i] == b[i - |a|] && (a + b)[j] == b[j - |a|];
      }
    }
    assert forall x :: x in a + b <==> x in a || x in b;
  }

  lemma PathsAdded(before: seq<Item>, listing: seq<Item>)
    requires Paths(before) <= Paths(listing)
    ensures Paths(Without(listing, Paths(before))) == Paths(listing) - Paths(before)
  {
  }

  lemma NoneGone(a: set<string>, b: set<string>)
    requires a - b == {}
    ensures a <= b
  {
    forall x | x in a ensures x in b {
      assert x !in a - b;
    }
  }

  /** Through the passes, what has been downloaded is each object of the last listing once. */
  lemma {:induction false} DownloadedPaths(site: Site, pass: nat)
    requires Proper(site) && pass >= 1 && Reaches(site, pass)
    ensures PathsUnique(Downloaded(site, pass)) && Paths(Downloaded(site, pass)) == Paths(site.listing(pass - 1))
  {
    if pass == 1 {
      DownloadedFirst(site);
    } else {
      DownloadedPaths(site, pass - 1);
      assert Continues(site, pass - 1);
      DownloadedMore(site, pass);
    }
  }

  lemma DownloadedFirst(site: Site)
    ensures Downloaded(site, 1) == site.listing(0)
  {
    assert Downloaded(site, 0) == [];
  }

  lemma DownloadedMore(site: Site, pass: nat)
    requires pass >= 2 && PathsUnique(site.listing(pass - 1)) && Gone(site, pass - 1) == {}
    requires PathsUnique(Downloaded(site, pass - 1)) && Paths(Downloaded(site, pass - 1)) == Paths(site.listing(pass - 2))
    ensures PathsUnique(Downloaded(site, pass)) && Paths(Downloaded(site, pass)) == Paths(site.listing(pass - 1))
  {
    var before, listing := site.listing(pass - 2), site.listing(pass - 1);
    NoneGone(Paths(before), Paths(listing));
    WithoutUnique(listing, Paths(before));
    PathsAdded(before, listing);
    PathsJoined(Downloaded(site, pass - 1), Without(listing, Paths(before)));
  }

  lemma {:induction false} PathsCount(items: seq<Item>)
    requires PathsUnique(items)
    ensures |Paths(items)| == |items|
  {
    if items != [] {
      var front, last := items[..|items| - 1], items[|items| - 1];
      assert items == front + [last];
      PathsCount(front);
      assert Paths(items) == Paths(front) + {last.path};
      assert last.path !in Paths(front);
    }
  }

  function RecordPaths(records: seq<Record>): set<string> {
    set r | r in records :: r.path
  }

  lemma {:induction false} RecordsCount(records: seq<Record>)
    requires RecordsUnique(records)
    ensures |RecordPaths(records)| == |records|
  {
    if records != [] {
      var front, last := records[..|records| - 1], records[|records| - 1];
      assert records == front + [last];
      RecordsCount(front);
      assert RecordPaths(records) == RecordPaths(front) + {last.path};
      assert last.path !in RecordPaths(front);
    }
  }

  lemma ByPathDistinct(records: seq<Record>)
    requires ByPath(records)
    ensures RecordsUnique(records)
  {
    StringOrder();
    forall i, j | 0 <= i < j < |records| ensures records[i].path != records[j].path {
      assert StringLess(records[i].path, records[j].path);
    }
  }

  /** A finished download holds exactly one record for each object of the last listing, after at most five
      passes, and that listing holds the objects of the one before. */
  lemma DoneExact(site: Site, pass: nat, r: Outcome)
    requires Proper(site) && pass >= 1 && EndsAt(site, pass, r) && r.Done?
    ensures 1 <= pass <= MAX_PASSES && Paths(site.listing(pass)) == Paths(site.listing(pass - 1))
    ensures RecordsUnique(r.records) && RecordPaths(r.records) == Paths(site.listing(pass))
    ensures |r.records| == |site.listing(pass)|
  {
    DownloadedPaths(site, pass);
    ByPathDistinct(r.records);
    NoneGone(Paths(site.listing(pass - 1)), Paths(site.listing(pass)));
    NoneGone(Paths(site.listing(pass)), Paths(site.listing(pass - 1)));
    RecordedPaths(site, pass, r);
    RecordsCount(r.records);
    PathsCount(site.listing(pass));
  }

  lemma PassesFetched(site: Site, pass: nat)
    requires pass >= 1 && Reaches(site, pass) && PassSucceeds(site, pass)
    ensures forall p: nat | 1 <= p <= pass :: AllFetched(site, ToDownload(site, p))
  {
    forall p: nat | 1 <= p <= pass ensures AllFetched(site, ToDownload(site, p)) {
      assert p < pass ==> Continues(site, p);
    }
  }

  /** Records of the objects, each under its path. */
  lemma SamePaths(site: Site, items: seq<Item>, records: seq<Record>)
    requires Proper(site) && AllFetched(site, items)
    requires forall record :: record in records <==> exists item <- items :: site.fetch(item) == Some(record)
    ensures RecordPaths(records) == Paths(items)
  {
    forall path | path in Paths(items) ensures path in RecordPaths(records) {
      var item :| item in items && item.path == path;
      assert site.fetch(item).value in records;
    }
    forall path | path in RecordPaths(records) ensures path in Paths(items) {
      var record :| record in records && record.path == path;
      var item :| item in items && site.fetch(item) == Some(record);
    }
  }

  lemma RecordedPaths(site: Site, pass: nat, r: Outcome)
    requires Proper(site) && pass >= 1 && EndsAt(site, pass, r) && r.Done?
    ensures RecordPaths(r.records) == Paths(Downloaded(site, pass))
  {
    PassesFetched(site, pass);
    forall item | item in Downloaded(site, pass) ensures site.fetch(item).Some? {
      DownloadedFetched(site, pass, item);
    }
    SamePaths(site, Downloaded(site, pass), r.records);
  }

  lemma {:induction false} DownloadedFetched(site: Site, pass: nat, item: Item)
    requires forall p: nat | 1 <= p <= pass :: AllFetched(site, ToDownload(site, p))
    requires item in Downloaded(site, pass)
    ensures site.fetch(item).Some?
  {
    if pass > 0 {
      DownloadedBy(site, pass, item);
      if item in Downloaded(site, pass - 1) {
        DownloadedFetched(site, pass - 1, item);
      }
    }
  }

  lemma DownloadedBy(site: Site, pass: nat, item: Item)
    requires pass >= 1 && item in Downloaded(site, pass)
    ensures (pass > 1 && item in Downloaded(site, pass - 1)) || item in ToDownload(site, pass)
  {
  }

  /** One pass: its objects, downloaded and valid. */
  method FetchPass(site: Site, items: seq<Item>, connections: nat, ghost pass: nat) returns (r: Option<seq<Record>>, ghost most: nat)
    requires connections > 0 && pass >= 1 && items == ToDownload(site, pass)
    ensures most == Window(items, connections)
    ensures r.Some? <==> PassSucceeds(site, pass)
    ensures r.Some? ==> Recorded(site, items, r.value)
  {
    var batch;
    batch, most := FetchAll(site, items, connections);
    if batch.None? {
      return None, most;
    }
    RecordedEach(site, items, batch.value);
    for i := 0 to |batch.value|
      invariant forall k | 0 <= k < i :: site.valid(batch.value[k])
    {
      if !site.valid(batch.value[i]) {
        assert batch.value[i] in batch.value;
        return None, most;
      }
    }
    forall item | item in items ensures site.valid(site.fetch(item).value) {
      assert site.fetch(item).value in batch.value;
    }
    return batch, most;
  }

  /** The inventory has stopped growing: the records, by path. */
  method Finish(site: Site, pass: nat, records: seq<Record>) returns (r: Outcome)
    requires Proper(site) && 1 <= pass <= MAX_PASSES && Reaches(site, pass) && PassSucceeds(site, pass)
    requires Gone(site, pass) == {} && Added(site, pass) == {} && Recorded(site, Downloaded(site, pass), records)
    ensures r.Done? && EndsAt(site, pass, r)
  {
    DownloadedPaths(site, pass);
    RecordedUnique(site, Downloaded(site, pass), records);
    var sorted := SortRecords(records);
    RecordedEach(site, Downloaded(site, pass), records);
    return Done(sorted);
  }

  lemma EndsFailed(site: Site, pass: nat)
    requires 1 <= pass <= MAX_PASSES && Reaches(site, pass) && !PassSucceeds(site, pass)
    ensures EndsAt(site, pass, Failed)
  {
  }

  lemma EndsGone(site: Site, pass: nat)
    requires 1 <= pass <= MAX_PASSES && Reaches(site, pass) && PassSucceeds(site, pass) && Gone(site, pass) != {}
    ensures EndsAt(site, pass, Disappeared(Gone(site, pass)))
  {
  }

  lemma EndsGrowing(site: Site, pass: nat)
    requires pass == MAX_PASSES && Reaches(site, pass) && Continues(site, pass)
    ensures EndsAt(site, pass, KeptGrowing(Added(site, pass)))
  {
  }

  lemma GoesOn(site: Site, pass: nat)
    requires pass >= 1 && Reaches(site, pass) && Continues(site, pass)
    ensures Reaches(site, pass + 1)
  {
  }

  /** The most downloads in flight at once in any of the first passes. */
  function WidestWindow(site: Site, passes: nat, connections: nat): nat {
    if passes == 0 then 0
    else
      var before, last := WidestWindow(site, passes - 1, connections), Window(ToDownload(site, passes), connections);
      if last > before then last else before
  }

  /** Before a pass: the last listing, what it is to download, and the records of the passes before. */
  ghost predicate Before(site: Site, pass: nat, inventory: seq<Item>, toDownload: seq<Item>, records: seq<Record>) {
    && 1 <= pass <= MAX_PASSES && Reaches(site, pass)
    && inventory == site.listing(pass - 1) && toDownload == ToDownload(site, pass)
    && Recorded(site, Downloaded(site, pass - 1), records)
  }

  lemma BeforeFirst(site: Site)
    ensures Before(site, 1, site.listing(0), site.listing(0), [])
  {
    assert Downloaded(site, 0) == [];
    assert Fetched(site, []) == [];
  }

  /** Look again for objects after a pass that succeeded: the end, or what the next pass is to download. */
  method Recheck(site: Site, pass: nat, inventory: seq<Item>, records: seq<Record>)
    returns (end: Option<Outcome>, later: seq<Item>, toDownload: seq<Item>)
    requires Proper(site) && 1 <= pass <= MAX_PASSES && Reaches(site, pass) && PassSucceeds(site, pass)
    requires inventory == site.listing(pass - 1) && Recorded(site, Downloaded(site, pass), records)
    ensures end.Some? ==> EndsAt(site, pass, end.value)
    ensures end.None? ==> Before(site, pass + 1, later, toDownload, records)
  {
    later, toDownload := site.listing(pass), [];
    var missing := Paths(inventory) - Paths(later);
    if missing != {} {
      EndsGone(site, pass);
      end := Some(Disappeared(missing));
      return;
    }
    var additions := Paths(later) - Paths(inventory);
    if additions == {} {
      var r := Finish(site, pass, records);
      end := Some(r);
      return;
    }
    if pass == MAX_PASSES {
      EndsGrowing(site, pass);
      end := Some(KeptGrowing(additions));
      return;
    }
    GoesOn(site, pass);
    end, toDownload := None, Without(later, Paths(inventory));
  }

  /** One pass and the look after it. */
  method Attempt(site: Site, connections: nat, pass: nat, inventory: seq<Item>, toDownload: seq<Item>, before: seq<Record>)
    returns (end: Option<Outcome>, later: seq<Item>, next: seq<Item>, records: seq<Record>, ghost flown: nat)
    requires connections > 0 && Proper(site) && Before(site, pass, inventory, toDownload, before)
    ensures flown == Window(ToDownload(site, pass), connections)
    ensures end.Some? ==> EndsAt(site, pass, end.value)
    ensures end.None? ==> Before(site, pass + 1, later, next, records)
  {
    later, next, records := inventory, [], before;
    var batch;
    batch, flown := FetchPass(site, toDownload, connections, pass);
    if batch.None? {
      EndsFailed(site, pass);
      end := Some(Failed);
      return;
    }
    RecordedMore(site, Downloaded(site, pass - 1), before, toDownload, batch.value);
    records := before + batch.value;
    end, later, next := Recheck(site, pass, inventory, records);
  }

  lemma WidestMore(site: Site, pass: nat, connections: nat)
    requires pass >= 1
    ensures var before, last := WidestWindow(site, pass - 1, connections), Window(ToDownload(site, pass), connections);
            WidestWindow(site, pass, connections) == if last > before then last else before
  {
  }

  /** Download until the inventory stops growing, rechecking it after each pass; `pass` is the last, and
      `most` the most downloads in flight at once. */
  method DownloadSources(site: Site, connections: nat) returns (r: Outcome, ghost pass: nat, ghost most: nat)
    requires connections > 0 && Proper(site)
    ensures exists last: nat :: last >= 1 && EndsAt(site, last, r)
    ensures pass >= 1 && EndsAt(site, pass, r)
    ensures most == WidestWindow(site, pass, connections)
  {
    var inventory := site.listing(0);
    var toDownload := inventory;
    var records: seq<Record> := [];
    pass, most := 0, 0;
    BeforeFirst(site);
    for attempt := 1 to MAX_PASSES + 1
      invariant most == WidestWindow(site, attempt - 1, connections)
      invariant Before(site, attempt, inventory, toDownload, records)
    {
      pass := attempt;
      var end;
      ghost var flown;
      end, inventory, toDownload, records, flown := Attempt(site, connections, attempt, inventory, toDownload, records);
      most := if flown > most then flown else most;
      assert most == WidestWindow(site, attempt, connections) by {
        WidestMore(site, attempt, connections);
      }
      if end.Some? {
        return end.value, pass, most;
      }
    }
  }

  lemma RecordedMore(site: Site, items: seq<Item>, records: seq<Record>, more: seq<Item>, batch: seq<Record>)
    requires Recorded(site, items, records) && Recorded(site, more, batch)
    ensures Recorded(site, items + more, records + batch)
  {
    assert AllFetched(site, items + more) by {
      forall item | item in items + more ensures site.fetch(item).Some? {
        assert item in items || item in more;
      }
    }
    assert Fetched(site, items + more) == Fetched(site, items) + Fetched(site, more);
  }

  lemma {:induction false} CountUnique(records: seq<Record>)
    ensures |RecordPaths(records)| <= |records|
    ensures |RecordPaths(records)| == |records| ==> RecordsUnique(records)
  {
    if records != [] {
      var front, last := records[..|records| - 1], records[|records| - 1];
      assert records == front + [last];
      CountUnique(front);
      assert RecordPaths(records) == RecordPaths(front) + {last.path};
      if last.path in RecordPaths(front) {
        assert RecordPaths(records) == RecordPaths(front);
      } else {
        forall i | 0 <= i < |front| ensures front[i].path != last.path {
          assert front[i] in front;
        }
      }
    }
  }

  lemma RecordedEach(site: Site, items: seq<Item>, records: seq<Record>)
    requires Recorded(site, items, records)
    ensures forall record :: record in records <==> exists item <- items :: site.fetch(item) == Some(record)
  {
    var fetched := Fetched(site, items);
    forall record ensures record in records <==> exists item <- items :: site.fetch(item) == Some(record) {
      assert record in records <==> record in multiset(records);
      assert record in fetched <==> record in multiset(fetched);
      if record in fetched {
        var i :| 0 <= i < |fetched| && fetched[i] == record;
        assert items[i] in items;
      }
      if item :| item in items && site.fetch(item) == Some(record) {
        var i :| 0 <= i < |items| && items[i] == item;
        assert fetched[i] == record;
      }
    }
  }

  lemma RecordedUnique(site: Site, items: seq<Item>, records: seq<Record>)
    requires Recorded(site, items, records) && PathsUnique(items) && Proper(site)
    ensures RecordsUnique(records)
  {
    RecordedEach(site, items, records);
    assert RecordPaths(records) == Paths(items) by {
      forall item | item in items ensures item.path in RecordPaths(records) {
        assert site.fetch(item).value in records;
      }
    }
    PathsCount(items);
    assert |records| == |multiset(records)| && |items| == |multiset(Fetched(site, items))|;
    CountUnique(records);
  }

  /** The records are those of the objects, one each. */
  ghost predicate Recorded(site: Site, items: seq<Item>, records: seq<Record>) {
    AllFetched(site, items) && multiset(records) == multiset(Fetched(site, items))
  }
}
