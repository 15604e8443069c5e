/**
 Cold import: every transcript Claude Code has on disk gets a rollout row. The
 full walk and the fast walk over changed files must agree.
 */
module ColdImport {
  import opened StateStore

  /** A .jsonl file found by the walk, in walk order; its stem is the harness session id. */
  datatype Transcript = Transcript(stem: string, path: string, modified: int)

  function ImportedRow(id: string, path: string): Rollout {
    Rollout(id, path, 0, "", Start)
  }

  function Stems(files: seq<Transcript>): set<string> {
    set f | f in files :: f.stem
  }

  /** The path of the first file named for the id: the one a full import records. */
  function FirstPath(files: seq<Transcript>, id: string): string {
    if files == [] then ""
    else if files[0].stem == id then files[0].path
    else FirstPath(files[1..], id)
  }

  function NewRows(known: set<string>, paths: map<string, string>): map<string, Rollout> {
    map id | id in paths && id !in known :: ImportedRow(id, paths[id])
  }

  function NewSessions(known: set<string>, paths: map<string, string>): map<string, string> {
    map id | id in paths && id !in known :: id
  }

  /** Import of the ids that have no rollout yet, each from its path. */
  function WithImports(db: Db, paths: map<string, string>): Db {
    db.(sessions := db.sessions + NewSessions(db.rollouts.Keys, paths),
        rollouts := db.rollouts + NewRows(db.rollouts.Keys, paths))
  }

  function FirstPaths(files: seq<Transcript>): map<string, string> {
    map id | id in Stems(files) && id != "" :: FirstPath(files, id)
  }

  // ------------------------------------------------------------------
  // The known set

  method LoadKnownHarnessIDs(st: State) returns (known: set<string>)
    requires ForeignKey(st.Tables())
    ensures known == st.Tables().rollouts.Keys
  {
    known := {};
    var todo := st.sessions.Keys;
    while todo != {}
      invariant todo <= st.sessions.Keys
      invariant known == set h | h in st.rollouts && st.rollouts[h].bridge in st.sessions.Keys - todo
      decreases todo
    {
      var bridge :| bridge in todo;
      var rows := st.ListRollouts(bridge);
      for i := 0 to |rows|
        invariant known == (set h | h in st.rollouts && st.rollouts[h].bridge in st.sessions.Keys - todo)
                         + set h | h in rows[..i]
      {
        known := known + {rows[i]};
      }
      assert rows[..|rows|] == rows;
      todo := todo - {bridge};
    }
  }

  // ------------------------------------------------------------------
  // One transcript, two statements

  method ColdImportRollout(st: State, id: string, path: string) returns (ok: bool)
    modifies st
    ensures Reply(ok, st.Tables()) ==
            var db := old(st.Tables());
            if id == "" then Reply(false, db)
            else RolloutInserted(SessionUpserted(db, id, id).db, id, ImportedRow(id, path))
    ensures ok <==> id != "" && id !in old(st.rollouts)
    ensures st.sessions == if id == "" then old(st.sessions) else old(st.sessions)[id := id]
    ensures st.rollouts == if ok then old(st.rollouts)[id := Rollout(id, path, 0, "", Start)] else old(st.rollouts)
    ensures st.wal == old(st.wal)
  {
    ok := st.UpsertSession(id, id);
    if !ok {
      return;
    }
    ok := st.InsertRollout(id, ImportedRow(id, path));
  }

  lemma AddUpdated<V>(m: map<string, V>, n: map<string, V>, id: string, v: V)
    ensures m + n[id := v] == (m + n)[id := v]
  {
  }

  lemma AddAgain<V>(m: map<string, V>, a: map<string, V>, b: map<string, V>)
    ensures (m + a) + b == m + (a + b)
  {
  }

  lemma AddNothing<V>(m: map<string, V>)
    ensures m + map[] == m
  {
  }

  lemma NewRowsNext(known: set<string>, paths: map<string, string>, id: string, path: string)
    ensures id !in known ==>
              NewRows(known, paths[id := path]) == NewRows(known, paths)[id := ImportedRow(id, path)]
              && NewSessions(known, paths[id := path]) == NewSessions(known, paths)[id := id]
    ensures id in known ==>
              NewRows(known, paths[id := path]) == NewRows(known, paths)
              && NewSessions(known, paths[id := path]) == NewSessions(known, paths)
  {
  }

  lemma ImportNothing(db: Db, none: map<string, string>)
    requires none == map[]
    ensures WithImports(db, none) == db
  {
    var known := db.rollouts.Keys;
    assert NewRows(known, none) == map[] && NewSessions(known, none) == map[];
    AddNothing(db.rollouts);
    AddNothing(db.sessions);
  }

  lemma ImportOne(db: Db, paths: map<string, string>, id: string, path: string)
    requires id != "" && id !in db.rollouts && id !in paths
    ensures var s := WithImports(db, paths);
            RolloutInserted(SessionUpserted(s, id, id).db, id, ImportedRow(id, path))
            == Reply(true, WithImports(db, paths[id := path]))
  {
    hide NewRows, NewSessions;
    var known := db.rollouts.Keys;
    NewRowsNext(known, paths, id, path);
    NewRowsKeys(known, paths);
    AddUpdated(db.sessions, NewSessions(known, paths), id, id);
    AddUpdated(db.rollouts, NewRows(known, paths), id, ImportedRow(id, path));
  }

  lemma NewRowsKeys(known: set<string>, paths: map<string, string>)
    ensures NewRows(known, paths).Keys == paths.Keys - known
    ensures NewSessions(known, paths).Keys == paths.Keys - known
  {
  }

  lemma FirstPathSnoc(files: seq<Transcript>, i: nat, id: string)
    requires i < |files|
    ensures FirstPath(files[..i + 1], id)
         == if id in Stems(files[..i]) then FirstPath(files[..i], id)
            else if files[i].stem == id then files[i].path else ""
    ensures Stems(files[..i + 1]) == Stems(files[..i]) + {files[i].stem}
  {
    assert files[..i + 1] == files[..i] + [files[i]];
    FirstPathAppend(files[..i], files[i], id);
  }

  lemma {:induction false} FirstPathAppend(files: seq<Transcript>, last: Transcript, id: string)
    ensures FirstPath(files + [last], id)
         == if id in Stems(files) then FirstPath(files, id) else if last.stem == id then last.path else ""
  {
    if files != [] {
      assert (files + [last])[1..] == files[1..] + [last];
      FirstPathAppend(files[1..], last, id);
      assert Stems(files) == {files[0].stem} + Stems(files[1..]) by {
        assert files == [files[0]] + files[1..];
      }
    }
  }

  // ------------------------------------------------------------------
  // The full walk

  /**
   The two statements of an import are refused exactly for an empty id or one that has
   a row already: one another process recorded after `known` was loaded stops the walk.
   */
  lemma ImportIsRefusedIff(db: Db, id: string, path: string)
    ensures
      !RolloutInserted(SessionUpserted(db, id, id).db, id, ImportedRow(id, path)).ok
      <==> id == "" || id in db.rollouts
  {
  }

  /** The walk of a process no other interferes with. */
  method ColdImportRollouts(st: State, files: seq<Transcript>) returns (ok: bool)
    requires ForeignKey(st.Tables())
    modifies st
    ensures ok && st.Tables() == WithImports(old(st.Tables()), FirstPaths(files))
  {
    hide WithImports, FirstPaths, RolloutInserted, SessionUpserted;
    ghost var db := st.Tables();
    var known := LoadKnownHarnessIDs(st);
    FirstPathsEmpty(files[..0]);
    ImportNothing(db, FirstPaths(files[..0]));
    for i := 0 to |files|
      invariant st.Tables() == WithImports(db, FirstPaths(files[..i]))
      invariant known == db.rollouts.Keys + FirstPaths(files[..i]).Keys
    {
      var id := files[i].stem;
      ghost var paths := FirstPaths(files[..i]);
      FirstPathsSnoc(files, i);
      if id != "" && id !in known {
        ImportOne(db, paths, id, files[i].path);
        ok := ColdImportRollout(st, id, files[i].path);
        if !ok {
          return;
        }
        known := known + {id};
      } else {
        if id in db.rollouts {
          SkippedPath(db, paths, id, files[i].path);
        }
      }
    }
    assert files[..|files|] == files;
    return true;
  }

  lemma FirstPathsEmpty(files: seq<Transcript>)
    requires files == []
    ensures FirstPaths(files) == map[]
  {
  }

  lemma FirstPathsSnoc(files: seq<Transcript>, i: nat)
    requires i < |files|
    ensures var paths, id := FirstPaths(files[..i]), files[i].stem;
            FirstPaths(files[..i + 1]) == if id == "" || id in paths then paths else paths[id := files[i].path]
  {
    forall id {
      FirstPathSnoc(files, i, id);
    }
  }

  lemma SkippedPath(db: Db, paths: map<string, string>, id: string, path: string)
    requires id in db.rollouts
    ensures WithImports(db, paths[id := path]) == WithImports(db, paths)
  {
    hide NewRows, NewSessions;
    NewRowsNext(db.rollouts.Keys, paths, id, path);
  }

  /** An import of any paths: a row and a session of its own for each id that has no row, nothing else. */
  lemma ImportsAre(db: Db, paths: map<string, string>, id: string)
    ensures
      var after := WithImports(db, paths);
      && (id in after.rollouts <==> id in db.rollouts || id in paths)
      && (id in db.rollouts ==> after.rollouts[id] == db.rollouts[id])
      && (id in paths && id !in db.rollouts ==>
            && after.rollouts[id] == Rollout(id, paths[id], 0, "", Start)
            && id in after.sessions && after.sessions[id] == id)
      && (id !in paths || id in db.rollouts ==>
            (id in after.sessions <==> id in db.sessions)
            && (id in db.sessions ==> after.sessions[id] == db.sessions[id]))
      && after.wal == db.wal
  {
  }

  lemma {:induction false} FirstPathIsFirst(files: seq<Transcript>, id: string) returns (i: nat)
    requires id in Stems(files)
    ensures i < |files| && files[i].stem == id && FirstPath(files, id) == files[i].path
    ensures forall j | 0 <= j < i :: files[j].stem != id
  {
    if files[0].stem == id {
      i := 0;
    } else {
      assert files == [files[0]] + files[1..];
      var k := FirstPathIsFirst(files[1..], id);
      i := k + 1;
      assert forall j | 0 < j < i :: files[j] == files[1..][j - 1];
    }
  }

  /**
   After an import every named transcript has a rollout row, written from the first
   file of its name unless it had one, every row that was there is unchanged, and
   nothing else appeared.
   */
  lemma EveryTranscriptHasItsRow(db: Db, files: seq<Transcript>, id: string)
    ensures var after := WithImports(db, FirstPaths(files));
            && (id in after.rollouts <==> id in db.rollouts || (id in Stems(files) && id != ""))
            && (id in db.rollouts ==> after.rollouts[id] == db.rollouts[id])
            && (id in after.rollouts && id !in db.rollouts ==>
                  && id in after.sessions && after.sessions[id] == id
                  && exists i ::
                       && 0 <= i < |files| && files[i].stem == id
                       && (forall j | 0 <= j < i :: files[j].stem != id)
                       && after.rollouts[id] == Rollout(id, files[i].path, 0, "", Start))
            && (ForeignKey(db) ==> ForeignKey(after))
            && after.wal == db.wal
  {
    var after := WithImports(db, FirstPaths(files));
    ImportsAre(db, FirstPaths(files), id);
    if id in after.rollouts && id !in db.rollouts {
      var i := FirstPathIsFirst(files, id);
      assert files[i].stem == id;
    }
    if ForeignKey(db) {
      forall h | h in after.rollouts
        ensures after.rollouts[h].bridge in after.sessions
      {
      }
    }
  }

  /** A second import finds nothing to do. */
  lemma ImportAgainIsNoOp(db: Db, paths: map<string, string>)
    ensures WithImports(WithImports(db, paths), paths) == WithImports(db, paths)
  {
    var after := WithImports(db, paths);
    NewRowsKeys(db.rollouts.Keys, paths);
    assert NewRows(after.rollouts.Keys, paths) == map[] && NewSessions(after.rollouts.Keys, paths) == map[];
    AddNothing(after.rollouts);
    AddNothing(after.sessions);
  }

  /**
   A crash leaves the first i files imported and possibly the next one's session
   row without its rollout. Importing again ends where an uninterrupted import would have.
   */
  lemma ImportRepairsACrash(db: Db, files: seq<Transcript>, i: nat, half: bool)
    requires i <= |files|
    requires half ==> i < |files| && files[i].stem != ""
                      && files[i].stem !in WithImports(db, FirstPaths(files[..i])).rollouts
    ensures var whole := WithImports(db, FirstPaths(files[..i]));
            var crashed := if half then SessionUpserted(whole, files[i].stem, files[i].stem).db else whole;
            WithImports(crashed, FirstPaths(files)) == WithImports(db, FirstPaths(files))
  {
    var done, all := FirstPaths(files[..i]), FirstPaths(files);
    PrefixPaths(files, i);
    ImportInStages(db, done, all);
    if half {
      HalfImport(WithImports(db, done), all, files[i].stem);
    }
  }

  lemma HalfImport(db: Db, all: map<string, string>, id: string)
    requires id in all && id != "" && id !in db.rollouts
    ensures WithImports(SessionUpserted(db, id, id).db, all) == WithImports(db, all)
  {
    var missing := NewSessions(db.rollouts.Keys, all);
    assert db.sessions[id := id] + missing == db.sessions + missing;
  }

  lemma NewRowsInStages(known: set<string>, some: map<string, string>, all: map<string, string>)
    requires some.Keys <= all.Keys && forall id | id in some :: all[id] == some[id]
    ensures var known' := known + some.Keys;
            && NewRows(known, some) + NewRows(known', all) == NewRows(known, all)
            && NewSessions(known, some) + NewSessions(known', all) == NewSessions(known, all)
  {
  }

  /** Importing some of the transcripts first changes nothing about the outcome. */
  lemma ImportInStages(db: Db, some: map<string, string>, all: map<string, string>)
    requires some.Keys <= all.Keys && forall id | id in some :: all[id] == some[id]
    ensures WithImports(WithImports(db, some), all) == WithImports(db, all)
  {
    hide NewRows, NewSessions;
    var known := db.rollouts.Keys;
    NewRowsKeys(known, some);
    assert WithImports(db, some).rollouts.Keys == known + some.Keys;
    var known' := known + some.Keys;
    NewRowsInStages(known, some, all);
    AddAgain(db.rollouts, NewRows(known, some), NewRows(known', all));
    AddAgain(db.sessions, NewSessions(known, some), NewSessions(known', all));
  }

  lemma {:induction false} PrefixPaths(files: seq<Transcript>, i: nat)
    requires i <= |files|
    ensures FirstPaths(files[..i]).Keys <= FirstPaths(files).Keys
    ensures forall id | id in FirstPaths(files[..i]) :: FirstPaths(files)[id] == FirstPaths(files[..i])[id]
    decreases |files| - i
  {
    if i < |files| {
      FirstPathsSnoc(files, i);
      PrefixPaths(files, i + 1);
    } else {
      assert files[..i] == files;
    }
  }

  // ------------------------------------------------------------------
  // The fast walk

  function ChangedFiles(files: seq<Transcript>, since: int): seq<Transcript> {
    if files == [] then []
    else
      var last := files[|files| - 1];
      ChangedFiles(files[..|files| - 1], since) + if last.modified > since then [last] else []
  }

  /** The path a later file with the same stem leaves behind. */
  function LastPaths(files: seq<Transcript>): map<string, string> {
    if files == [] then map[]
    else LastPaths(files[..|files| - 1])[files[|files| - 1].stem := files[|files| - 1].path]
  }

  method WalkChanged(files: seq<Transcript>, since: int) returns (changed: map<string, string>)
    ensures changed == LastPaths(ChangedFiles(files, since))
  {
    changed := map[];
    for i := 0 to |files|
      invariant changed == LastPaths(ChangedFiles(files[..i], since))
    {
      ChangedSnoc(files, i, since);
      if files[i].modified > since {
        changed := changed[files[i].stem := files[i].path];
      }
    }
    assert files[..|files|] == files;
  }

  /** The fast walk's map: every changed name, with the path of the last changed file of that name; -1 if none. */
  lemma {:induction false} ChangedPathIsLast(files: seq<Transcript>, since: int, id: string) returns (i: int)
    ensures -1 <= i < |files|
    ensures
      var changed := LastPaths(ChangedFiles(files, since));
      && (i == -1 <==> id !in changed)
      && (i >= 0 ==> files[i].stem == id && files[i].modified > since && changed[id] == files[i].path)
    ensures forall j | i < j < |files| && files[j].modified > since :: files[j].stem != id
  {
    i := -1;
    if files != [] {
      var n := |files| - 1;
      i := ChangedPathIsLast(files[..n], since, id);
      ChangedSnoc(files, n, since);
      assert files[..n + 1] == files;
      hide ChangedFiles, LastPaths;
      if files[n].modified > since && files[n].stem == id {
        i := n;
      }
    }
  }

  /** found maps each changed transcript to the bridge session its row names. */
  method ImportChanged(st: State, changed: map<string, string>) returns (ok: bool, found: map<string, string>)
    requires ForeignKey(st.Tables()) && "" !in st.Tables().rollouts
    modifies st
    ensures ok <==> "" !in changed
    ensures ok ==> st.Tables() == WithImports(old(st.Tables()), changed)
    ensures ok ==> found.Keys == changed.Keys
                   && forall id | id in found :: id in st.rollouts && found[id] == st.rollouts[id].bridge
    ensures forall h | h in old(st.rollouts) :: h in st.rollouts && st.rollouts[h] == old(st.rollouts[h])
  {
    hide WithImports;
    ghost var db := st.Tables();
    found := map[];
    var todo := changed.Keys;
    ghost var done: map<string, string> := map[];
    ImportNothing(db, done);
    while todo != {}
      invariant todo <= changed.Keys
      invariant done.Keys == changed.Keys - todo && forall id | id in done :: done[id] == changed[id]
      invariant "" !in done && found.Keys == done.Keys
      invariant st.Tables() == WithImports(db, done)
      invariant forall id | id in found :: id in st.rollouts && found[id] == st.rollouts[id].bridge
      decreases todo
    {
      var id :| id in todo;
      ImportedKeys(db, done);
      var bridge, known := st.BridgeSessionIDForHarness(id);
      if !known {
        if id != "" {
          ImportOne(db, done, id, changed[id]);
        }
        var imported := ColdImportRollout(st, id, changed[id]);
        if !imported {
          return false, found;
        }
        bridge := id;
      } else {
        SkippedPath(db, done, id, changed[id]);
      }
      done := done[id := changed[id]];
      todo := todo - {id};
      found := found[id := bridge];
    }
    assert done == changed;
    ImportedKeys(db, done);
    return true, found;
  }

  lemma ImportedKeys(db: Db, paths: map<string, string>)
    ensures WithImports(db, paths).rollouts.Keys == db.rollouts.Keys + paths.Keys
    ensures forall h | h in db.rollouts :: WithImports(db, paths).rollouts[h] == db.rollouts[h]
  {
    NewRowsKeys(db.rollouts.Keys, paths);
  }

  /**
   The fast walk fails exactly when a changed file is named `.jsonl`, whose empty
   stem the full walk skips.
   */
  method DiscoverSessionsChangedSince(st: State, files: seq<Transcript>, since: int)
    returns (ok: bool, found: map<string, string>)
    requires ForeignKey(st.Tables()) && "" !in st.Tables().rollouts
    modifies st
    ensures ok <==> "" !in Stems(ChangedFiles(files, since))
    ensures ok ==> st.Tables() == WithImports(old(st.Tables()), LastPaths(ChangedFiles(files, since)))
    ensures ok ==> found.Keys == Stems(ChangedFiles(files, since))
                   && forall id | id in found :: id in st.rollouts && found[id] == st.rollouts[id].bridge
    ensures forall h | h in old(st.rollouts) :: h in st.rollouts && st.rollouts[h] == old(st.rollouts[h])
  {
    var changed := WalkChanged(files, since);
    LastPathKeys(ChangedFiles(files, since));
    if |changed| == 0 {
      ImportNothing(st.Tables(), changed);
      return true, map[];
    }
    ok, found := ImportChanged(st, changed);
  }

  /** The file that makes the difference: changed, it stops the fast walk, and the full walk passes it by. */
  method WalkOverBareSuffix(path: string, modified: int, since: int) returns (full: bool, fast: bool)
    requires modified > since
    ensures full && !fast
  {
    var files := [Transcript("", path, modified)];
    var st := new State();
    full := ColdImportRollouts(st, files);
    st := new State();
    var ok, _ := DiscoverSessionsChangedSince(st, files, since);
    fast := ok;
    ChangedAreFiles(files, since);
    assert files[0] in files;
  }

  lemma ChangedSnoc(files: seq<Transcript>, i: nat, since: int)
    requires i < |files|
    ensures var paths := LastPaths(ChangedFiles(files[..i], since));
            LastPaths(ChangedFiles(files[..i + 1], since))
            == if files[i].modified > since then paths[files[i].stem := files[i].path] else paths
  {
    var earlier := ChangedFiles(files[..i], since);
    assert files[..i + 1][..i] == files[..i];
    assert (earlier + [files[i]])[..|earlier|] == earlier;
    assert earlier + [] == earlier;
  }

  lemma {:induction false} LastPathKeys(files: seq<Transcript>)
    ensures LastPaths(files).Keys == Stems(files)
  {
    if files != [] {
      LastPathKeys(files[..|files| - 1]);
      assert files == files[..|files| - 1] + [files[|files| - 1]];
    }
  }

  ghost predicate DistinctStems(files: seq<Transcript>) {
    forall i, j | 0 <= i < j < |files| :: files[i].stem != files[j].stem
  }

  lemma {:induction false} OnePathEach(files: seq<Transcript>)
    requires DistinctStems(files) && "" !in Stems(files)
    ensures LastPaths(files) == FirstPaths(files)
  {
    if files != [] {
      var n := |files| - 1;
      assert Stems(files[..n]) <= Stems(files);
      OnePathEach(files[..n]);
      FirstPathsSnoc(files, n);
      assert files[..n + 1] == files;
      assert files[n] in files;
    }
  }

  lemma {:induction false} ChangedAreFiles(files: seq<Transcript>, since: int)
    ensures forall f :: f in ChangedFiles(files, since) <==> f in files && f.modified > since
    ensures DistinctStems(files) ==> DistinctStems(ChangedFiles(files, since))
  {
    if files != [] {
      var n := |files| - 1;
      ChangedAreFiles(files[..n], since);
      assert files == files[..n] + [files[n]];
      var earlier := ChangedFiles(files[..n], since);
      if DistinctStems(files) {
        forall i, j | 0 <= i < j < |ChangedFiles(files, since)|
          ensures ChangedFiles(files, since)[i].stem != ChangedFiles(files, since)[j].stem
        {
          if j == |earlier| {
            assert earlier[i] in earlier;
          }
        }
      }
    }
  }

  /**
   With distinct stems the two walks write the same rows: the fast one does for
   the changed files what the full one does, and leaves the rest to it.
   */
  lemma FastWalkAgreesWithFull(db: Db, files: seq<Transcript>, since: int)
    requires DistinctStems(files) && "" !in Stems(ChangedFiles(files, since))
    ensures var changed, all := LastPaths(ChangedFiles(files, since)), FirstPaths(files);
            && changed == FirstPaths(ChangedFiles(files, since))
            && (forall id | id in changed :: id in all && all[id] == changed[id])
            && WithImports(WithImports(db, changed), all) == WithImports(db, all)
            && (forall id | id in changed ::
                  id in WithImports(db, changed).rollouts && id in WithImports(db, all).rollouts
                  && WithImports(db, changed).rollouts[id] == WithImports(db, all).rollouts[id])
  {
    var changed, all := ChangedFiles(files, since), FirstPaths(files);
    ChangedAreFiles(files, since);
    assert Stems(changed) <= Stems(files);
    OnePathEach(changed);
    forall id | id in Stems(changed)
      ensures FirstPath(changed, id) == FirstPath(files, id)
    {
      var f :| f in changed && f.stem == id;
      OwnPath(changed, f);
      OwnPath(files, f);
    }
    ImportInStages(db, FirstPaths(changed), all);
  }

  lemma {:induction false} OwnPath(files: seq<Transcript>, f: Transcript)
    requires DistinctStems(files) && f in files
    ensures FirstPath(files, f.stem) == f.path
  {
    if files[0] != f {
      assert f in files[1..];
      var k :| 0 < k < |files| && files[k] == f;
      OwnPath(files[1..], f);
    }
  }
}
