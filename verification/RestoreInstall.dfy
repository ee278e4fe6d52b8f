/** Installing a restored set of files by renames, with an undo of both phases, and the PostgreSQL
    variant that moves a database along. Any stat, rename or removal may fail. */
module RestoreInstall {
  import opened Common

  type File = nat
  /** The files of the state directory that a restore replaces, and any other file. */
  datatype Name = PanelDb | PanelWal | PanelShm | MasterKey | Xray | Hy2 | RuntimeMode | RuntimeCommit | Other(id: nat)

  const NAMES: seq<Name> := [PanelDb, PanelWal, PanelShm, MasterKey, Xray, Hy2, RuntimeMode, RuntimeCommit]

  type Directory = map<Name, File>

  function At(d: Directory, n: Name): Option<File> { if n in d then Some(d[n]) else None }

  /** The write-ahead log and its index are moved away but never installed; other files are left alone. */
  predicate Installs(n: Name) { !n.Other? && !n.PanelWal? && !n.PanelShm? }

  lemma NamesAreAll(n: Name)
    ensures n in NAMES <==> !n.Other?
  {
    assert NAMES[0] == PanelDb && NAMES[1] == PanelWal && NAMES[2] == PanelShm && NAMES[3] == MasterKey;
    assert NAMES[4] == Xray && NAMES[5] == Hy2 && NAMES[6] == RuntimeMode && NAMES[7] == RuntimeCommit;
  }

  /** The directory after the move of `moved` out of `was` and of `installed` in from `staged`. */
  ghost predicate Between(live: Directory, was: Directory, staged: Directory, moved: set<Name>, installed: set<Name>)
  {
    forall n :: At(live, n) == if n in installed then At(staged, n) else if n in moved then None else At(was, n)
  }

  /** No file of the old directory is lost: it is live, or kept aside, with its old content. */
  ghost predicate NothingLost(live: Directory, previous: Directory, was: Directory)
  {
    forall n :: n in was ==> At(live, n) == Some(was[n]) || At(previous, n) == Some(was[n])
  }

  /** The whole staged set is live, the log files are gone, nothing else changed. */
  ghost predicate Installed(live: Directory, was: Directory, staged: Directory)
  {
    && (forall n :: Installs(n) ==> n in staged && At(live, n) == Some(staged[n]))
    && PanelWal !in live && PanelShm !in live
    && (forall n: Name :: n.Other? ==> At(live, n) == At(was, n))
  }

  function ToSet(s: seq<Name>): set<Name> { set n | n in s }

  class StateDirectory {
    var live: Directory
    var staged: Directory
    var previous: Directory
    var database: File

    constructor (live: Directory, staged: Directory, database: File)
      ensures this.live == live && this.staged == staged && this.previous == map[] && this.database == database
    {
      this.live, this.staged, this.previous, this.database := live, staged, map[], database;
    }

    // ------------------------------------------------------------------ single renames

    /** A file operation fails, unless the attempt is calm. */
    static method Fault(calm: bool) returns (bad: bool)
      ensures calm ==> !bad
    {
      bad := *;
      if calm {
        bad := false;
      }
    }

    method MoveAway(n: Name, calm: bool) returns (ok: bool)
      requires n in live
      modifies this`live, this`previous
      ensures ok ==> live == old(live) - {n} && previous == old(previous)[n := old(live)[n]]
      ensures !ok ==> live == old(live) && previous == old(previous)
      ensures calm ==> ok
    {
      var bad := Fault(calm);
      if bad { return false; }
      previous := previous[n := live[n]];
      live := live - {n};
      return true;
    }

    method MoveIn(n: Name, calm: bool) returns (ok: bool)
      modifies this`live, this`staged
      ensures ok ==> n in old(staged) && live == old(live)[n := old(staged)[n]] && staged == old(staged) - {n}
      ensures !ok ==> live == old(live) && staged == old(staged)
      ensures calm && n in old(staged) ==> ok
    {
      if n !in staged { return false; }
      var bad := Fault(calm);
      if bad { return false; }
      live := live[n := staged[n]];
      staged := staged - {n};
      return true;
    }

    method MoveBack(n: Name, calm: bool) returns (ok: bool)
      modifies this`live, this`previous
      ensures ok ==> n in old(previous) && live == old(live)[n := old(previous)[n]] && previous == old(previous) - {n}
      ensures !ok ==> live == old(live) && previous == old(previous)
      ensures calm && n in old(previous) ==> ok
    {
      if n !in previous { return false; }
      var bad := Fault(calm);
      if bad { return false; }
      live := live[n := previous[n]];
      previous := previous - {n};
      return true;
    }

    method Delete(n: Name, calm: bool) returns (ok: bool)
      modifies this`live
      ensures live == if ok then old(live) - {n} else old(live)
      ensures calm && n in old(live) ==> ok
    {
      if n !in live { return false; }
      var bad := Fault(calm);
      if bad { return false; }
      live := live - {n};
      return true;
    }

    // ------------------------------------------------------------------ the two phases

    /** Phase one: every existing file of the set is moved aside. */
    method MoveAll(calm: bool) returns (ok: bool, moved: seq<Name>)
      requires previous == map[]
      modifies this`live, this`previous
      ensures ToSet(moved) <= ToSet(NAMES) && Distinct(moved)
      ensures ok ==> forall n :: n in NAMES && n in old(live) <==> n in moved
      ensures Between(live, old(live), map[], ToSet(moved), {})
      ensures forall n :: At(previous, n) == if n in moved then At(old(live), n) else None
      ensures forall n :: n in moved ==> n in old(live)
      ensures calm ==> ok
    {
      moved := [];
      for i := 0 to |NAMES|
        invariant Distinct(moved)
        invariant forall n :: n in moved <==> n in NAMES[..i] && n in old(live)
        invariant Between(live, old(live), map[], ToSet(moved), {})
        invariant forall n :: At(previous, n) == if n in moved then At(old(live), n) else None
      {
        var n := NAMES[i];
        assert NAMES[..i + 1] == NAMES[..i] + [n];
        assert n !in NAMES[..i];
        var bad := Fault(calm);
        if bad {
          // the stat failed for another reason than a missing file
          return false, moved;
        }
        if n in live {
          var renamed := MoveAway(n, calm);
          if !renamed {
            return false, moved;
          }
          moved := moved + [n];
        }
      }
      ok := true;
    }

    /** Phase two: the staged files move in. */
    method InstallAll(calm: bool, ghost moved: set<Name>, ghost was: Directory) returns (ok: bool, installed: seq<Name>)
      requires Between(live, was, staged, moved, {})
      modifies this`live, this`staged
      ensures Distinct(installed) && forall n :: n in installed ==> Installs(n) && n in old(staged)
      ensures ok ==> forall n :: Installs(n) ==> n in installed
      ensures Between(live, was, old(staged), moved, ToSet(installed))
      ensures calm && (forall n :: Installs(n) ==> n in old(staged)) ==> ok
    {
      installed := [];
      for i := 0 to |NAMES|
        invariant Distinct(installed)
        invariant forall n :: n in installed <==> n in NAMES[..i] && Installs(n)
        invariant forall n :: n in installed ==> n in old(staged)
        invariant forall n :: At(staged, n) == if n in installed then None else At(old(staged), n)
        invariant Between(live, was, old(staged), moved, ToSet(installed))
      {
        var n := NAMES[i];
        assert NAMES[..i + 1] == NAMES[..i] + [n];
        assert n !in NAMES[..i];
        if n != PanelWal && n != PanelShm {
          var renamed := MoveIn(n, calm);
          if !renamed {
            return false, installed;
          }
          installed := installed + [n];
        }
      }
      forall n: Name ensures n in NAMES <==> !n.Other? { NamesAreAll(n); }
      ok := true;
    }

    // ------------------------------------------------------------------ the undo

    /** Removes what was installed, last first; a failure is noted and the rest still tried. */
    method UndoInstalls(calm: bool, installed: seq<Name>, ghost moved: set<Name>, ghost was: Directory, ghost incoming: Directory) returns (clean: bool)
      requires Distinct(installed) && (forall n :: n in installed ==> n in incoming)
      requires Between(live, was, incoming, moved, ToSet(installed))
      modifies this`live
      ensures clean ==> Between(live, was, incoming, moved + ToSet(installed), {})
      ensures forall n :: n !in installed ==> At(live, n) == At(old(live), n)
      ensures calm && (forall n :: n in installed ==> n in old(live)) ==> clean
    {
      clean := true;
      ghost var gone: set<Name> := {};
      for i := |installed| downto 0
        invariant forall n :: n in gone <==> n in installed[i..]
        invariant forall n :: n !in installed ==> At(live, n) == At(old(live), n)
        invariant forall n :: n in installed[..i] ==> At(live, n) == At(old(live), n)
        invariant clean ==> forall n :: n in gone ==> n !in live
        invariant calm && (forall n :: n in installed ==> n in old(live)) ==> clean
      {
        var n := installed[i];
        assert installed[i..] == [n] + installed[i + 1..];
        assert installed[..i + 1] == installed[..i] + [n];
        assert n !in installed[..i] && n !in installed[i + 1..];
        assert n in old(live) ==> n in live by { assert n in installed[..i + 1]; }
        var removed := Delete(n, calm);
        clean := clean && removed;
        gone := gone + {n};
      }
      assert installed[0..] == installed;
    }

    /** Moves back what was moved aside, last first. */
    method UndoMoves(calm: bool, moved: seq<Name>, ghost was: Directory) returns (clean: bool)
      requires Distinct(moved) && (forall n :: n in moved ==> n in was)
      requires forall n :: At(previous, n) == if n in moved then At(was, n) else None
      modifies this`live, this`previous
      ensures forall n :: n !in moved ==> At(live, n) == At(old(live), n)
      ensures forall n :: n in moved ==> At(live, n) == At(was, n) || (At(previous, n) == At(was, n) && At(live, n) == At(old(live), n))
      ensures clean ==> previous == map[] && forall n :: n in moved ==> At(live, n) == At(was, n)
      ensures calm ==> clean
    {
      clean := true;
      for i := |moved| downto 0
        invariant Undoing(live, previous, old(live), was, moved, i, clean)
        invariant calm ==> clean
      {
        ghost var live1, previous1 := live, previous;
        var renamed := MoveBack(moved[i], calm);
        UndoOneMore(live1, previous1, old(live), was, moved, i, clean, live, previous, renamed);
        clean := clean && renamed;
      }
      assert clean ==> previous == map[] by {
        if clean {
          assert forall n :: n !in previous;
        }
      }
    }

    /** The deferred undo of both phases, in the opposite order. */
    method Undo(undo: bool, moved: seq<Name>, installed: seq<Name>, ghost was: Directory, ghost incoming: Directory) returns (clean: bool)
      requires Distinct(moved) && (forall n :: n in moved ==> n in was && !n.Other?)
      requires Distinct(installed) && (forall n :: n in installed ==> n in incoming && Installs(n) && (n in was ==> n in moved))
      requires forall n :: At(previous, n) == if n in moved then At(was, n) else None
      requires Between(live, was, incoming, ToSet(moved), ToSet(installed))
      modifies this`live, this`previous
      ensures clean ==> live == was && previous == map[]
      ensures forall n: Name :: n.Other? ==> At(live, n) == At(was, n)
      ensures NothingLost(live, previous, was)
      ensures undo ==> clean
    {
      assert forall n :: n in installed ==> At(live, n) == At(incoming, n) && n in live;
      var removed := UndoInstalls(undo, installed, ToSet(moved), was, incoming);
      ghost var emptied := live;
      var restored := UndoMoves(undo, moved, was);
      clean := removed && restored;
      if clean {
        UndoneIsOld(live, emptied, was, incoming, moved, installed);
      }
    }

    // ------------------------------------------------------------------ the whole

    /** installRestore: on success the whole staged set is live; on a failure whose undo succeeds, the
        directory is exactly as before; and whatever fails, no old file is lost. `calm` means that nothing
        fails while installing, `undo` that nothing fails while undoing. */
    method InstallRestore(calm: bool, undo: bool) returns (ok: bool, clean: bool)
      requires previous == map[]
      modifies this`live, this`staged, this`previous
      ensures ok ==> Installed(live, old(live), old(staged))
      ensures !ok && clean ==> live == old(live) && previous == map[]
      ensures !ok ==> forall n: Name :: n.Other? ==> At(live, n) == At(old(live), n)
      ensures NothingLost(live, previous, old(live))
      ensures calm && (forall n :: Installs(n) ==> n in old(staged)) ==> ok
      ensures undo ==> ok || clean
    {
      ghost var was, staged0 := live, staged;
      clean := true;
      var moved, installed: seq<Name> := [], [];
      ok, moved := MoveAll(calm);
      if ok {
        assert Between(live, was, staged, ToSet(moved), {});
        ok, installed := InstallAll(calm, ToSet(moved), was);
        if ok {
          AllInstalled(live, previous, was, staged0, moved, installed);
          return;
        }
      }
      clean := Undo(undo, moved, installed, was, staged0);
    }

    /** restorePostgres after its checks: the database is replaced first and copied back if the files fail. */
    method RestorePostgres(database2: File, calm: bool, undo: bool) returns (ok: bool, clean: bool)
      requires previous == map[]
      modifies this
      ensures ok ==> database == database2 && Installed(live, old(live), old(staged))
      ensures !ok && clean ==> database == old(database) && live == old(live)
      ensures NothingLost(live, previous, old(live))
      ensures calm && (forall n :: Installs(n) ==> n in old(staged)) ==> ok
      ensures undo ==> ok || clean
    {
      ok, clean := false, true;
      var snapshot := database;
      var bad := Fault(calm);
      if bad { return; }
      // One transaction replaces every table.
      database := database2;
      ok, clean := InstallRestore(calm, undo);
      if !ok {
        var lost := Fault(undo);
        if lost {
          // the snapshot could not be opened or copied back
          clean := false;
        } else {
          database := snapshot;
        }
      }
    }
  }

  /** The undo of the moves, from the last down to number `i`. */
  ghost predicate Undoing(live: Directory, previous: Directory, live0: Directory, was: Directory, moved: seq<Name>, i: nat, clean: bool)
    requires i <= |moved|
  {
    && (forall n :: n !in moved ==> At(live, n) == At(live0, n) && n !in previous)
    && forall j :: 0 <= j < |moved| ==>
         || (i <= j && At(live, moved[j]) == At(was, moved[j]) && moved[j] !in previous)
         || ((i <= j ==> !clean) && At(live, moved[j]) == At(live0, moved[j]) && At(previous, moved[j]) == At(was, moved[j]))
  }

  lemma UndoOneMore(live: Directory, previous: Directory, live0: Directory, was: Directory, moved: seq<Name>, i: nat, clean: bool,
                    live2: Directory, previous2: Directory, renamed: bool)
    requires Distinct(moved) && i < |moved| && Undoing(live, previous, live0, was, moved, i + 1, clean)
    requires renamed ==> moved[i] in previous && live2 == live[moved[i] := previous[moved[i]]] && previous2 == previous - {moved[i]}
    requires !renamed ==> live2 == live && previous2 == previous
    ensures Undoing(live2, previous2, live0, was, moved, i, clean && renamed)
  {
  }

  lemma AllInstalled(live: Directory, previous: Directory, was: Directory, staged: Directory, moved: seq<Name>, installed: seq<Name>)
    requires Between(live, was, staged, ToSet(moved), ToSet(installed))
    requires forall n :: n in NAMES && n in was <==> n in moved
    requires forall n :: n in installed <==> Installs(n)
    requires forall n :: n in installed ==> n in staged
    requires forall n :: At(previous, n) == if n in moved then At(was, n) else None
    ensures Installed(live, was, staged) && NothingLost(live, previous, was)
  {
    forall n ensures n in NAMES <==> !n.Other? { NamesAreAll(n); }
    assert At(live, PanelWal) == None && At(live, PanelShm) == None;
  }

  lemma SameDirectory(a: Directory, b: Directory)
    requires forall n :: At(a, n) == At(b, n)
    ensures a == b
  {
    forall n ensures n in a <==> n in b
             ensures n in a ==> a[n] == b[n]
    {
      assert At(a, n) == At(b, n);
    }
  }

  lemma UndoneIsOld(live: Directory, emptied: Directory, was: Directory, staged: Directory, moved: seq<Name>, installed: seq<Name>)
    requires Between(emptied, was, staged, ToSet(moved) + ToSet(installed), {})
    requires forall n :: n in installed && n !in moved ==> n !in was
    requires forall n :: n !in moved ==> At(live, n) == At(emptied, n)
    requires forall n :: n in moved ==> At(live, n) == At(was, n)
    ensures live == was
  {
    forall n ensures At(live, n) == At(was, n) {
      assert At(emptied, n) == if n in moved || n in installed then None else At(was, n);
    }
    SameDirectory(live, was);
  }

  predicate Distinct(s: seq<Name>)
  {
    forall i, j :: 0 <= i < j < |s| ==> s[i] != s[j]
  }
}
