/**
 * The latest-value cache of motion readings: one entry per channel name, each
 * overwritten by the channel's producer and never removed.
 */
module Cache {
  import opened Records

  /** Record a new reading for channel `name`; every other channel keeps its entry. */
  function UpdateChannel(cache: map<string, Reading>, name: string, v: Reading): (r: map<string, Reading>)
    ensures name in r && r[name] == v
    ensures r.Keys == cache.Keys + {name}
    ensures forall k :: k in cache && k != name ==> r[k] == cache[k]
  {
    cache[name := v]
  }

  /** The cache after a sequence of producer updates, applied in arrival order. */
  function ApplyUpdates(cache: map<string, Reading>, updates: seq<(string, Reading)>): map<string, Reading>
    decreases |updates|
  {
    if updates == [] then cache
    else ApplyUpdates(UpdateChannel(cache, updates[0].0, updates[0].1), updates[1..])
  }

  /** Applying one more update after a sequence is the same as applying the extended sequence. */
  lemma {:induction false} ApplyUpdatesSnoc(cache: map<string, Reading>, updates: seq<(string, Reading)>, u: (string, Reading))
    ensures ApplyUpdates(cache, updates + [u]) == UpdateChannel(ApplyUpdates(cache, updates), u.0, u.1)
    decreases |updates|
  {
    if updates == [] {
      assert [] + [u] == [u];
      assert [u][1..] == [];
    } else {
      assert (updates + [u])[0] == updates[0];
      assert (updates + [u])[1..] == updates[1..] + [u];
      ApplyUpdatesSnoc(UpdateChannel(cache, updates[0].0, updates[0].1), updates[1..], u);
    }
  }

  /** The most recent reading delivered for channel `name` in `updates`, if any. */
  function LatestFor(updates: seq<(string, Reading)>, name: string): Option<Reading>
    decreases |updates|
  {
    if updates == [] then None
    else if updates[|updates| - 1].0 == name then Some(updates[|updates| - 1].1)
    else LatestFor(updates[..|updates| - 1], name)
  }

  lemma {:induction false} LatestForCons(u: (string, Reading), rest: seq<(string, Reading)>, name: string)
    ensures LatestFor([u] + rest, name) ==
      (if LatestFor(rest, name).Some? then LatestFor(rest, name)
       else if u.0 == name then Some(u.1) else None)
    decreases |rest|
  {
    var all := [u] + rest;
    if rest == [] {
      assert all == [u];
      assert all[..|all| - 1] == [];
    } else {
      assert all[|all| - 1] == rest[|rest| - 1];
      assert all[..|all| - 1] == [u] + rest[..|rest| - 1];
      LatestForCons(u, rest[..|rest| - 1], name);
    }
  }

  /**
   * After any sequence of producer updates, each channel holds the reading of its
   * latest update, or its earlier entry when it received none; no channel appears
   * without an update or an earlier entry.
   */
  lemma {:induction false} ApplyUpdatesLatest(cache: map<string, Reading>, updates: seq<(string, Reading)>, name: string)
    ensures name in ApplyUpdates(cache, updates) <==> name in cache || LatestFor(updates, name).Some?
    ensures LatestFor(updates, name).Some? ==>
      ApplyUpdates(cache, updates)[name] == LatestFor(updates, name).value
    ensures LatestFor(updates, name).None? && name in cache ==>
      ApplyUpdates(cache, updates)[name] == cache[name]
    decreases |updates|
  {
    if updates != [] {
      var u := updates[0];
      var rest := updates[1..];
      assert updates == [u] + rest;
      LatestForCons(u, rest, name);
      ApplyUpdatesLatest(UpdateChannel(cache, u.0, u.1), rest, name);
    }
  }
}
