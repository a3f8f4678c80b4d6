/**
 The version chain of one slowly changing snapshot (one tenant, data source and kind): a publish whose
 content hash is the current one only moves the time it was last seen; any other closes the current
 version and starts a new one. The content hash is a parameter.
 */
module SnapshotChain {
  import opened Options

  /** What is published: the content that is hashed, and when it was collected. */
  datatype Publish = Publish(content: string, at: int)

  datatype Version = Version(hash: string, content: string, collected: int, created: int, superseded: Option<int>)

  function Max(a: int, b: int): int { if a >= b then a else b }

  // ---------------------------------------------------------------- the history publishes should leave

  function Last<T>(s: seq<T>): T
    requires s != []
  {
    s[|s| - 1]
  }

  predicate NoneEmpty(runs: seq<seq<Publish>>) { forall i | 0 <= i < |runs| :: runs[i] != [] }

  /** The runs after one more publish: the last run goes on if the hash is the same. */
  function AddTo(hash: string -> string, runs: seq<seq<Publish>>, p: Publish): (r: seq<seq<Publish>>)
    requires NoneEmpty(runs)
    ensures NoneEmpty(r)
  {
    if runs != [] && hash(Last(Last(runs)).content) == hash(p.content)
    then runs[..|runs| - 1] + [Last(runs) + [p]]
    else runs + [[p]]
  }

  /** The publishes cut into maximal runs of one hash. */
  function Runs(hash: string -> string, ps: seq<Publish>): (runs: seq<seq<Publish>>)
    ensures NoneEmpty(runs)
    ensures ps != [] ==> runs != [] && Last(Last(runs)) == Last(ps)
  {
    if ps == [] then [] else AddTo(hash, Runs(hash, ps[..|ps| - 1]), Last(ps))
  }

  function Flatten(runs: seq<seq<Publish>>): seq<Publish> {
    if runs == [] then [] else Flatten(runs[..|runs| - 1]) + Last(runs)
  }

  predicate SameHash(hash: string -> string, run: seq<Publish>) {
    forall j | 0 <= j < |run| :: hash(run[j].content) == hash(run[0].content)
  }

  /** Every run is of one hash, and neighbouring ones differ. */
  predicate Maximal(hash: string -> string, runs: seq<seq<Publish>>)
    requires NoneEmpty(runs)
  {
    && (forall i | 0 <= i < |runs| :: SameHash(hash, runs[i]))
    && (forall i | 0 < i < |runs| :: hash(runs[i - 1][0].content) != hash(runs[i][0].content))
  }

  /** The runs are the publishes in order. */
  lemma {:induction false} RunsFlatten(hash: string -> string, ps: seq<Publish>)
    ensures Flatten(Runs(hash, ps)) == ps
  {
    if ps != [] {
      var front := ps[..|ps| - 1];
      RunsFlatten(hash, front);
      FlattenAddTo(hash, Runs(hash, front), Last(ps));
      assert front + [Last(ps)] == ps;
    }
  }

  /** They are cut exactly where the hash changes. */
  lemma {:induction false} RunsAreMaximal(hash: string -> string, ps: seq<Publish>)
    ensures Maximal(hash, Runs(hash, ps))
    ensures
      var runs := Runs(hash, ps);
      && (forall i, j | 0 <= i < |runs| && 0 <= j < |runs[i]| :: hash(runs[i][j].content) == hash(runs[i][0].content))
      && (forall i, j | 0 <= i < |runs| && j == i + 1 < |runs| :: hash(runs[i][0].content) != hash(runs[j][0].content))
  {
    if ps != [] {
      var front := ps[..|ps| - 1];
      RunsAreMaximal(hash, front);
      MaximalAddTo(hash, Runs(hash, front), Last(ps));
    }
  }

  lemma LastRunHash(hash: string -> string, ps: seq<Publish>)
    requires ps != []
    ensures hash(Last(Runs(hash, ps))[0].content) == hash(Last(ps).content)
  {
  }

  lemma FlattenAddTo(hash: string -> string, runs: seq<seq<Publish>>, p: Publish)
    requires NoneEmpty(runs)
    ensures Flatten(AddTo(hash, runs, p)) == Flatten(runs) + [p]
  {
    if runs != [] && hash(Last(Last(runs)).content) == hash(p.content) {
      var front := runs[..|runs| - 1];
      FlattenSnoc(front, Last(runs) + [p]);
      Associative(Flatten(front), Last(runs), [p]);
    } else {
      FlattenSnoc(runs, [p]);
    }
  }

  lemma FlattenSnoc(runs: seq<seq<Publish>>, run: seq<Publish>)
    ensures Flatten(runs + [run]) == Flatten(runs) + run
  {
  }

  lemma Associative(a: seq<Publish>, b: seq<Publish>, c: seq<Publish>)
    ensures a + (b + c) == (a + b) + c
  {
  }

  lemma MaximalAddTo(hash: string -> string, runs: seq<seq<Publish>>, p: Publish)
    requires NoneEmpty(runs)
    requires Maximal(hash, runs)
    ensures Maximal(hash, AddTo(hash, runs, p))
  {
  }

  function Latest(run: seq<Publish>): int
    requires run != []
  {
    if |run| == 1 then run[0].at else Max(Latest(run[..|run| - 1]), Last(run).at)
  }

  /** It is the time of some publish of the run, and none is later. */
  lemma {:induction false} LatestIs(run: seq<Publish>)
    requires run != []
    ensures (exists p :: p in run && p.at == Latest(run)) && forall p | p in run :: p.at <= Latest(run)
  {
    var last := run[|run| - 1];
    assert last in run;
    if |run| > 1 {
      var front := run[..|run| - 1];
      LatestIs(front);
      var q :| q in front && q.at == Latest(front);
      assert q in run && run == front + [last];
    }
  }

  /** The version a run leaves; the next run, if there is one, closed it. */
  function VersionOf(hash: string -> string, run: seq<Publish>, next: Option<seq<Publish>>): Version
    requires run != [] && (next.Some? ==> next.value != [])
  {
    Version(hash(run[0].content), run[0].content, Latest(run), run[0].at,
            if next.None? then None else Some(next.value[0].at))
  }

  function NextRun(runs: seq<seq<Publish>>, i: nat): (next: Option<seq<Publish>>)
    requires NoneEmpty(runs)
    ensures next.Some? ==> next.value != []
  {
    if i + 1 < |runs| then Some(runs[i + 1]) else None
  }

  function Versions(hash: string -> string, runs: seq<seq<Publish>>): (vs: seq<Version>)
    requires NoneEmpty(runs)
    ensures |vs| == |runs|
    ensures forall i | 0 <= i < |vs| :: vs[i] == VersionOf(hash, runs[i], NextRun(runs, i))
  {
    seq(|runs|, i requires 0 <= i < |runs| => VersionOf(hash, runs[i], NextRun(runs, i)))
  }

  function History(hash: string -> string, ps: seq<Publish>): seq<Version> { Versions(hash, Runs(hash, ps)) }

  /** The table after one more publish with hash `h`, when the current version's hash is `h` or not. */
  function Touched(vs: seq<Version>, at: int): seq<Version>
    requires vs != []
  {
    vs[|vs| - 1 := Last(vs).(collected := Max(Last(vs).collected, at))]
  }

  function Closed(vs: seq<Version>, at: int): seq<Version> {
    if vs == [] then [] else vs[|vs| - 1 := Last(vs).(superseded := Some(at))]
  }

  lemma VersionsAddTo(hash: string -> string, runs: seq<seq<Publish>>, p: Publish)
    requires NoneEmpty(runs)
    requires Maximal(hash, runs)
    ensures
      var was := Versions(hash, runs);
      Versions(hash, AddTo(hash, runs, p)) ==
        if was != [] && Last(was).hash == hash(p.content) then Touched(was, p.at)
        else Closed(was, p.at) + [Version(hash(p.content), p.content, p.at, p.at, None)]
  {
  }

  lemma HistorySnoc(hash: string -> string, ps: seq<Publish>, p: Publish)
    ensures
      var was := History(hash, ps);
      History(hash, ps + [p]) ==
        if was != [] && Last(was).hash == hash(p.content) then Touched(was, p.at)
        else Closed(was, p.at) + [Version(hash(p.content), p.content, p.at, p.at, None)]
  {
    assert (ps + [p])[..|ps|] == ps;
    RunsAreMaximal(hash, ps);
    VersionsAddTo(hash, Runs(hash, ps), p);
  }

  // ---------------------------------------------------------------- the table

  /** Index of the version that is not superseded, if there is one. */
  function CurrentIndex(vs: seq<Version>): Option<nat> {
    if vs == [] then None
    else if Last(vs).superseded.None? then Some(|vs| - 1)
    else CurrentIndex(vs[..|vs| - 1])
  }

  class Chain {
    const hash: string -> string
    var versions: seq<Version>
    ghost var published: seq<Publish>

    /** The table holds exactly the history of what was published. */
    ghost predicate Valid() reads this { versions == History(hash, published) }

    constructor (hash: string -> string)
      ensures Valid() && versions == [] && published == [] && this.hash == hash
    {
      this.hash := hash;
      versions, published := [], [];
    }

    method PublishStateSnapshot(p: Publish)
      requires Valid()
      modifies this
      ensures Valid() && published == old(published) + [p]
    {
      var h := hash(p.content);
      HistorySnoc(hash, published, p);
      var same := SupersedeIfChanged(h, p.at);
      if !same {
        versions := versions + [Version(h, p.content, p.at, p.at, None)];
      }
      published := published + [p];
    }

    /** Touches the current version if the hash is the same, otherwise closes it. */
    method SupersedeIfChanged(h: string, at: int) returns (same: bool)
      requires Valid()
      modifies this`versions
      ensures same <==> old(versions) != [] && Last(old(versions)).hash == h
      ensures versions == if same then Touched(old(versions), at) else Closed(old(versions), at)
    {
      var current := CurrentIndex(versions);
      if current.None? {
        return false;
      }
      var k := current.value;
      if versions[k].hash == h {
        versions := versions[k := versions[k].(collected := Max(versions[k].collected, at))];
        return true;
      }
      versions := versions[k := versions[k].(superseded := Some(at))];
      return false;
    }
  }

  // ---------------------------------------------------------------- what the history says

  /** Consecutive repeats collapsed, read from the front. */
  function Collapse(hs: seq<string>): seq<string> {
    if |hs| <= 1 then hs
    else if hs[0] == hs[1] then Collapse(hs[1..])
    else [hs[0]] + Collapse(hs[1..])
  }

  function Hashes(hash: string -> string, ps: seq<Publish>): (r: seq<string>)
    ensures |r| == |ps| && forall k | 0 <= k < |r| :: r[k] == hash(ps[k].content)
  {
    seq(|ps|, k requires 0 <= k < |ps| => hash(ps[k].content))
  }

  function VersionHashes(vs: seq<Version>): (r: seq<string>)
    ensures |r| == |vs| && forall k | 0 <= k < |r| :: r[k] == vs[k].hash
  {
    seq(|vs|, k requires 0 <= k < |vs| => vs[k].hash)
  }

  lemma {:induction false} CollapseSnoc(hs: seq<string>, h: string)
    ensures hs == [] ==> Collapse(hs + [h]) == [h]
    ensures hs != [] ==>
      && Collapse(hs) != [] && Collapse(hs)[|Collapse(hs)| - 1] == hs[|hs| - 1]
      && Collapse(hs + [h]) == if hs[|hs| - 1] == h then Collapse(hs) else Collapse(hs) + [h]
  {
    if |hs| == 1 {
      assert (hs + [h])[1..] == [h];
    } else if |hs| > 1 {
      assert (hs + [h])[1..] == hs[1..] + [h];
      CollapseSnoc(hs[1..], h);
    }
  }

  lemma HashesAddTo(hash: string -> string, runs: seq<seq<Publish>>, p: Publish)
    requires NoneEmpty(runs)
    ensures
      var was := VersionHashes(Versions(hash, runs));
      VersionHashes(Versions(hash, AddTo(hash, runs, p))) ==
        if runs != [] && hash(Last(Last(runs)).content) == hash(p.content) then was else was + [hash(p.content)]
  {
    hide Versions, VersionHashes;
    var was := VersionHashes(Versions(hash, runs));
    var now := VersionHashes(Versions(hash, AddTo(hash, runs, p)));
    forall i | 0 <= i < |runs| ensures now[i] == was[i] { }
  }

  lemma EmptyChain(hash: string -> string)
    ensures VersionHashes(History(hash, [])) == [] && Collapse(Hashes(hash, [])) == []
  {
  }

  /** The chain's hashes are the published hashes with consecutive repeats collapsed. */
  lemma {:induction false} ChainIsCollapsed(hash: string -> string, ps: seq<Publish>)
    ensures VersionHashes(History(hash, ps)) == Collapse(Hashes(hash, ps))
  {
    hide AddTo, Versions, VersionOf, Collapse, Hashes;
    if ps == [] {
      assert VersionHashes(History(hash, ps)) == [] && Collapse(Hashes(hash, ps)) == [] by { EmptyChain(hash); }
    } else {
      var front := ps[..|ps| - 1];
      ChainIsCollapsed(hash, front);
      var h := hash(Last(ps).content);
      var hs := Hashes(hash, front);
      assert Hashes(hash, ps) == hs + [h];
      CollapseSnoc(hs, h);
      HashesAddTo(hash, Runs(hash, front), Last(ps));
      assert front != [] ==> hs[|hs| - 1] == hash(Last(Last(Runs(hash, front))).content);
    }
  }

  /**
   After any publishes the only version in force is the last; it has the last publish's hash, and each
   version was superseded at the moment its successor was created.
   */
  lemma OneCurrentVersion(hash: string -> string, ps: seq<Publish>)
    requires ps != []
    ensures
      var vs := History(hash, ps);
      && vs != [] && Last(vs).hash == hash(Last(ps).content)
      && (forall i | 0 <= i < |vs| :: vs[i].superseded.None? <==> i == |vs| - 1)
      && (forall i | 0 <= i < |vs| - 1 :: vs[i].superseded == Some(vs[i + 1].created))
  {
    LastRunHash(hash, ps);
    VersionsAreChained(hash, Runs(hash, ps));
  }

  lemma VersionsAreChained(hash: string -> string, runs: seq<seq<Publish>>)
    requires NoneEmpty(runs)
    ensures
      var vs := Versions(hash, runs);
      && (forall i | 0 <= i < |vs| :: vs[i].superseded.None? <==> i == |vs| - 1)
      && (forall i | 0 <= i < |vs| - 1 :: vs[i].superseded == Some(vs[i + 1].created))
      && (forall i | 0 <= i < |vs| :: vs[i].hash == hash(runs[i][0].content))
  {
    hide Versions, Latest;
    var vs := Versions(hash, runs);
    forall i | 0 <= i < |vs| - 1 ensures vs[i].superseded == Some(vs[i + 1].created) {
      assert NextRun(runs, i) == Some(runs[i + 1]);
    }
  }

  /** With a hash that tells the published contents apart, what is in force is the last content published. */
  lemma CurrentIsLastContent(hash: string -> string, ps: seq<Publish>)
    requires ps != []
    requires forall i | 0 <= i < |ps| :: hash(ps[i].content) == hash(Last(ps).content) ==> ps[i].content == Last(ps).content
    ensures Last(History(hash, ps)).content == Last(ps).content
  {
    LastRunHash(hash, ps);
    RunsFlatten(hash, ps);
    var runs := Runs(hash, ps);
    var before := Flatten(runs[..|runs| - 1]);
    assert ps == before + Last(runs);
    assert ps[|before|] == Last(runs)[0];
  }

  /**
   Each version in full: there is one for each maximal run, with the hash, content and time of creation of the
   first publish of the run, last seen at the latest of the run, and closed when the first of the next came.
   */
  lemma VersionsAreRuns(hash: string -> string, ps: seq<Publish>, i: nat)
    requires i < |History(hash, ps)|
    ensures
      var runs, v := Runs(hash, ps), History(hash, ps)[i];
      && |runs| == |History(hash, ps)| && runs[i] != []
      && v.hash == hash(runs[i][0].content) && v.content == runs[i][0].content && v.created == runs[i][0].at
      && (exists p :: p in runs[i] && p.at == v.collected) && (forall p | p in runs[i] :: p.at <= v.collected)
      && (i + 1 < |runs| ==> runs[i + 1] != [] && v.superseded == Some(runs[i + 1][0].at))
      && (i + 1 == |runs| ==> v.superseded == None)
  {
    LatestIs(Runs(hash, ps)[i]);
  }
}
