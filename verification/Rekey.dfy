/** Offline re-encryption of every database file under a new key, where any step
    can fail. */
module Rekey {
  import opened Prelude

  type Key = string

  /** What a file holds: a database under a key, or nothing that opens. */
  datatype Image = Sealed(key: Key, content: string) | Damaged

  /** A database file and its write-ahead log, which overrides the file as long as
      it stands beside it. */
  datatype File = File(main: Image, wal: Option<Image>)

  function Visible(f: File): Image {
    if f.wal.Some? then f.wal.value else f.main
  }

  datatype KeyText = Holds(key: Key) | Garbled

  /** Where the server takes its key from. */
  datatype KeySource = KeyFile | Elsewhere

  datatype Setup = Setup(enabled: bool, source: KeySource, oldKey: Key)

  /** Database files and backups by name, and the key file. */
  datatype Drive = Drive(files: map<string, File>, backups: map<string, Image>, keyFile: KeyText)

  /** How the steps on one file turn out: opening it for the backup may fold its
      log, and a failed copy leaves part of a file; the same for rekeying, where
      `after` is what a failed rekey leaves and tells whether a successful one
      leaves its pages in a log; a log may resist removal, and a failed restore
      leaves part of a file. */
  datatype Fate = Fate(opens: bool, folds: bool, copies: bool, partial: Image,
                       reopens: bool, refolds: bool, rekeys: bool, after: File,
                       locked: bool, restores: bool, torn: Image)

  datatype Luck = Luck(makesDir: bool, at: string -> Fate, writesKey: bool, keyLeft: KeyText)

  datatype Exit = Disabled | NoFiles | BackupFailed | RestoreFailed | Restored | KeyWriteFailed | Done(printed: Option<Key>)

  predicate UnderOld(f: File, oldKey: Key) {
    Visible(f).Sealed? && Visible(f).key == oldKey
  }

  predicate Lists(listing: seq<string>, files: map<string, File>) {
    && Listed(listing, files)
    && (forall n :: n in files ==> n in listing)
  }

  predicate Listed(listing: seq<string>, files: map<string, File>) {
    && (forall i :: 0 <= i < |listing| ==> listing[i] in files)
    && (forall i, j :: 0 <= i < j < |listing| ==> listing[i] != listing[j])
  }

  // ---- The command as a function --------------------------------------------

  datatype Step = Step(drive: Drive, ok: bool)

  function Opened(f: File, folds: bool): File {
    if folds then File(Visible(f), None) else f
  }

  function BackUpOne(d: Drive, n: string, oldKey: Key, fate: Fate): (r: Step)
    requires n in d.files
    ensures r.drive.files.Keys == d.files.Keys
  {
    var f := Opened(d.files[n], fate.folds);
    var seen := d.(files := d.files[n := f]);
    if !(fate.opens && UnderOld(f, oldKey)) then Step(seen, false)
    else Step(seen.(backups := d.backups[n := if fate.copies then Visible(f) else fate.partial]), fate.copies)
  }

  function BackUpAll(d: Drive, listing: seq<string>, oldKey: Key, at: string -> Fate): (r: Step)
    requires forall i :: 0 <= i < |listing| ==> listing[i] in d.files
    ensures r.drive.files.Keys == d.files.Keys && r.drive.keyFile == d.keyFile
  {
    if listing == [] then Step(d, true)
    else
      var before := BackUpAll(d, listing[..|listing| - 1], oldKey, at);
      var n := listing[|listing| - 1];
      if before.ok then BackUpOne(before.drive, n, oldKey, at(n)) else before
  }

  /** A rekey in place, read back before it counts. */
  function RekeyOne(d: Drive, n: string, oldKey: Key, key: Key, fate: Fate): (r: Step)
    requires n in d.files
    ensures r.drive.files.Keys == d.files.Keys
  {
    var f := Opened(d.files[n], fate.refolds);
    if !(fate.reopens && UnderOld(f, oldKey)) then Step(d.(files := d.files[n := f]), false)
    else
      var image := Sealed(key, Visible(f).content);
      var rekeyed := if fate.after.wal.Some? then fate.after.(wal := Some(image)) else File(image, None);
      Step(d.(files := d.files[n := if fate.rekeys then rekeyed else fate.after]), fate.rekeys)
  }

  function RekeyAll(d: Drive, listing: seq<string>, oldKey: Key, key: Key, at: string -> Fate): (r: Step)
    requires forall i :: 0 <= i < |listing| ==> listing[i] in d.files
    ensures r.drive.files.Keys == d.files.Keys
    ensures r.drive.backups == d.backups && r.drive.keyFile == d.keyFile
  {
    if listing == [] then Step(d, true)
    else
      var before := RekeyAll(d, listing[..|listing| - 1], oldKey, key, at);
      var n := listing[|listing| - 1];
      if before.ok then RekeyOne(before.drive, n, oldKey, key, at(n)) else before
  }

  /** What a restore copies: nothing that opens when there is no backup. */
  function BackupOr(d: Drive, n: string): Image {
    if n in d.backups then d.backups[n] else Damaged
  }

  /** Removing the log is tried, and failure to is ignored. */
  function RestoreOne(d: Drive, n: string, fate: Fate): (r: Step)
    requires n in d.files
    ensures r.drive.files.Keys == d.files.Keys
  {
    var wal := if fate.locked then d.files[n].wal else None;
    Step(d.(files := d.files[n := File(if fate.restores then BackupOr(d, n) else fate.torn, wal)]), fate.restores)
  }

  function RestoreAll(d: Drive, listing: seq<string>, at: string -> Fate): (r: Step)
    requires forall i :: 0 <= i < |listing| ==> listing[i] in d.files
    ensures r.drive.files.Keys == d.files.Keys
    ensures r.drive.backups == d.backups && r.drive.keyFile == d.keyFile
  {
    if listing == [] then Step(d, true)
    else
      var before := RestoreAll(d, listing[..|listing| - 1], at);
      var n := listing[|listing| - 1];
      if before.ok then RestoreOne(before.drive, n, at(n)) else before
  }

  datatype Outcome = Outcome(drive: Drive, exit: Exit)

  /** The drive when rekeying ended, well or not. */
  function AfterRekeying(setup: Setup, d: Drive, listing: seq<string>, key: Key, luck: Luck): Step
    requires Lists(listing, d.files)
  {
    RekeyAll(BackUpAll(d, listing, setup.oldKey, luck.at).drive, listing, setup.oldKey, key, luck.at)
  }

  function Command(setup: Setup, d: Drive, listing: seq<string>, key: Key, luck: Luck): Outcome
    requires Lists(listing, d.files)
  {
    if !setup.enabled then Outcome(d, Disabled)
    else if |listing| == 0 then Outcome(d, NoFiles)
    else if !luck.makesDir then Outcome(d, BackupFailed)
    else
      var backup := BackUpAll(d, listing, setup.oldKey, luck.at);
      if !backup.ok then Outcome(backup.drive, BackupFailed)
      else
        var rekey := AfterRekeying(setup, d, listing, key, luck);
        if !rekey.ok then
          var restore := RestoreAll(rekey.drive, listing, luck.at);
          Outcome(restore.drive, if restore.ok then Restored else RestoreFailed)
        else if setup.source == Elsewhere then Outcome(rekey.drive, Done(Some(key)))
        else if luck.writesKey then Outcome(rekey.drive.(keyFile := Holds(key)), Done(None))
        else Outcome(rekey.drive.(keyFile := luck.keyLeft), KeyWriteFailed)
  }

  // ---- What each loop does --------------------------------------------------

  lemma BackUpGrows(d: Drive, listing: seq<string>, i: nat, oldKey: Key, at: string -> Fate)
    requires Listed(listing, d.files) && i < |listing|
    ensures BackUpAll(d, [], oldKey, at) == Step(d, true)
    ensures var before := BackUpAll(d, listing[..i], oldKey, at);
            before.ok ==> BackUpAll(d, listing[..i + 1], oldKey, at) == BackUpOne(before.drive, listing[i], oldKey, at(listing[i]))
  {
    assert listing[..i + 1][..i] == listing[..i];
    hide BackUpOne;
  }

  lemma NoneBackedUp(d: Drive, listing: seq<string>, oldKey: Key, at: string -> Fate)
    ensures BackUpAll(d, listing[..0], oldKey, at) == Step(d, true)
  {
  }

  lemma ListedAt(listing: seq<string>, files: map<string, File>, i: nat)
    requires Listed(listing, files) && i < |listing|
    ensures listing[i] in files
  {
  }

  lemma {:induction false} BackUpStops(d: Drive, listing: seq<string>, i: nat, oldKey: Key, at: string -> Fate)
    requires Listed(listing, d.files) && i <= |listing|
    requires !BackUpAll(d, listing[..i], oldKey, at).ok
    ensures BackUpAll(d, listing, oldKey, at) == BackUpAll(d, listing[..i], oldKey, at)
  {
    if i == |listing| {
      assert listing[..i] == listing;
    } else {
      assert listing[..|listing| - 1][..i] == listing[..i];
      BackUpStops(d, listing[..|listing| - 1], i, oldKey, at);
    }
  }

  lemma {:induction false} RekeyStops(d: Drive, listing: seq<string>, i: nat, oldKey: Key, key: Key, at: string -> Fate)
    requires Listed(listing, d.files) && i <= |listing|
    requires !RekeyAll(d, listing[..i], oldKey, key, at).ok
    ensures RekeyAll(d, listing, oldKey, key, at) == RekeyAll(d, listing[..i], oldKey, key, at)
  {
    if i == |listing| {
      assert listing[..i] == listing;
    } else {
      assert listing[..|listing| - 1][..i] == listing[..i];
      RekeyStops(d, listing[..|listing| - 1], i, oldKey, key, at);
    }
  }

  lemma {:induction false} RestoreStops(d: Drive, listing: seq<string>, i: nat, at: string -> Fate)
    requires Listed(listing, d.files) && i <= |listing|
    requires !RestoreAll(d, listing[..i], at).ok
    ensures RestoreAll(d, listing, at) == RestoreAll(d, listing[..i], at)
  {
    if i == |listing| {
      assert listing[..i] == listing;
    } else {
      assert listing[..|listing| - 1][..i] == listing[..i];
      RestoreStops(d, listing[..|listing| - 1], i, at);
    }
  }

  /** Backing up changes nothing visible, and when it succeeds every listed
      original is backed up. */
  lemma {:induction false} BackUpKeeps(d: Drive, listing: seq<string>, oldKey: Key, at: string -> Fate, n: string)
    requires Listed(listing, d.files) && n in d.files
    ensures var r := BackUpAll(d, listing, oldKey, at);
            && Visible(r.drive.files[n]) == Visible(d.files[n])
            && (r.ok && n in listing ==>
                  UnderOld(d.files[n], oldKey) && n in r.drive.backups && r.drive.backups[n] == Visible(d.files[n]))
  {
    if listing != [] {
      var front, last := listing[..|listing| - 1], listing[|listing| - 1];
      BackUpKeeps(d, front, oldKey, at, n);
      BackUpKeeps(d, front, oldKey, at, last);
      assert n in listing ==> n in front || n == last by {
        assert listing == front + [last];
      }
    }
  }

  /** Rekeying touches only listed files, and when it succeeds each opens under the
      new key with its content. */
  lemma {:induction false} RekeyChanges(d: Drive, listing: seq<string>, oldKey: Key, key: Key, at: string -> Fate, n: string)
    requires Listed(listing, d.files) && n in d.files
    ensures var r := RekeyAll(d, listing, oldKey, key, at);
            && (n !in listing ==> r.drive.files[n] == d.files[n])
            && (r.ok && n in listing ==>
                  UnderOld(d.files[n], oldKey) && Visible(r.drive.files[n]) == Sealed(key, Visible(d.files[n]).content))
  {
    if listing != [] {
      var front, last := listing[..|listing| - 1], listing[|listing| - 1];
      RekeyChanges(d, front, oldKey, key, at, n);
      RekeyChanges(d, front, oldKey, key, at, last);
      assert listing == front + [last];
      assert last !in front;
    }
  }

  /** A restore that succeeds puts every backup back, and leaves a log only where
      it could not be removed. */
  lemma {:induction false} RestoreReturns(d: Drive, listing: seq<string>, at: string -> Fate, n: string)
    requires Listed(listing, d.files) && n in d.files
    ensures var r := RestoreAll(d, listing, at);
            && (n !in listing ==> r.drive.files[n] == d.files[n])
            && (r.ok && n in listing ==>
                  r.drive.files[n] == File(BackupOr(d, n), if at(n).locked then d.files[n].wal else None))
  {
    if listing != [] {
      var front, last := listing[..|listing| - 1], listing[|listing| - 1];
      RestoreReturns(d, front, at, n);
      RestoreReturns(d, front, at, last);
      assert listing == front + [last];
      assert last !in front;
    }
  }

  lemma KeepsListing(d: Drive, listing: seq<string>, oldKey: Key, key: Key, at: string -> Fate)
    requires Lists(listing, d.files)
    ensures Listed(listing, d.files)
    ensures var b := BackUpAll(d, listing, oldKey, at).drive;
            && Lists(listing, b.files) && Listed(listing, b.files)
            && Lists(listing, RekeyAll(b, listing, oldKey, key, at).drive.files)
            && Listed(listing, RekeyAll(b, listing, oldKey, key, at).drive.files)
  {
  }

  // ---- What the command promises --------------------------------------------

  /** Each file opens under the key with its content of before. */
  predicate AllUnder(was: map<string, File>, now: map<string, File>, oldKey: Key, key: Key) {
    && now.Keys == was.Keys
    && forall n :: n in was ==> UnderOld(was[n], oldKey) && Visible(now[n]) == Sealed(key, Visible(was[n]).content)
  }

  predicate AllVisible(was: map<string, File>, now: map<string, File>) {
    now.Keys == was.Keys && forall n :: n in was ==> Visible(now[n]) == Visible(was[n])
  }

  predicate AllBackedUp(was: map<string, File>, backups: map<string, Image>, oldKey: Key) {
    forall n :: n in was ==> UnderOld(was[n], oldKey) && n in backups && backups[n] == Visible(was[n])
  }

  /** A database under the old key is not lost: it opens in place or from the
      backups under the old key, or in place under the key the key file holds. */
  predicate Survives(was: File, now: File, backup: Option<Image>, keyFile: KeyText) {
    var image := Visible(was);
    || Visible(now) == image
    || backup == Some(image)
    || (image.Sealed? && keyFile.Holds? && Visible(now) == Sealed(keyFile.key, image.content))
  }

  function BackupOf(backups: map<string, Image>, n: string): Option<Image> {
    if n in backups then Some(backups[n]) else None
  }

  /** A restored file holds its original, which shows exactly if its log could be
      removed, or the abort left none, or one with the original's own pages. */
  predicate RestoredAs(was: File, aborted: File, now: File, locked: bool) {
    && now.main == Visible(was) && (!locked ==> now.wal.None?)
    && (Visible(now) == Visible(was) <==> !locked || aborted.wal.None? || aborted.wal.value == Visible(was))
  }

  /** Success leaves every file under the new key, and a key file with that key.
      Before the rekeying nothing visible changes; a restore puts every original
      back in its file; and whatever the exit, no original is lost. */
  ghost predicate Promises(setup: Setup, was: Drive, aborted: Drive, now: Drive, exit: Exit, key: Key, at: string -> Fate)
    requires now.files.Keys == was.files.Keys == aborted.files.Keys
  {
    && (exit.Done? ==>
          && AllUnder(was.files, now.files, setup.oldKey, key)
          && (setup.source == KeyFile ==> now.keyFile == Holds(key))
          && (setup.source == Elsewhere ==> exit.printed == Some(key)))
    && (exit.Disabled? || exit.NoFiles? || exit.BackupFailed? ==> AllVisible(was.files, now.files))
    && (exit.Restored? || exit.RestoreFailed? || exit.KeyWriteFailed? ==> AllBackedUp(was.files, now.backups, setup.oldKey))
    && (exit.Restored? ==> forall n :: n in now.files ==>
          RestoredAs(was.files[n], aborted.files[n], now.files[n], at(n).locked))
    && (exit.KeyWriteFailed? ==> AllUnder(was.files, now.files, setup.oldKey, key))
    && (exit.Disabled? <==> !setup.enabled)
    && (exit.NoFiles? <==> setup.enabled && was.files == map[])
    && (!(exit.Done? || exit.KeyWriteFailed?) || setup.source == Elsewhere ==> now.keyFile == was.keyFile)
    && (forall n :: n in was.files && UnderOld(was.files[n], setup.oldKey) ==>
          Survives(was.files[n], now.files[n], BackupOf(now.backups, n), now.keyFile))
  }

  ghost predicate AllOrNothing(setup: Setup, was: Drive, listing: seq<string>, key: Key, luck: Luck)
    requires Lists(listing, was.files)
  {
    var r := Command(setup, was, listing, key, luck);
    var aborted := AfterRekeying(setup, was, listing, key, luck).drive;
    r.drive.files.Keys == was.files.Keys && Promises(setup, was, aborted, r.drive, r.exit, key, luck.at)
  }

  lemma AllBackUps(d: Drive, listing: seq<string>, oldKey: Key, at: string -> Fate)
    requires Lists(listing, d.files)
    ensures var r := BackUpAll(d, listing, oldKey, at);
            AllVisible(d.files, r.drive.files) && (r.ok ==> AllBackedUp(d.files, r.drive.backups, oldKey))
  {
    hide BackUpAll, UnderOld;
    forall n | n in d.files
      ensures var r := BackUpAll(d, listing, oldKey, at);
              && Visible(r.drive.files[n]) == Visible(d.files[n])
              && (r.ok ==> UnderOld(d.files[n], oldKey) && n in r.drive.backups && r.drive.backups[n] == Visible(d.files[n]))
    {
      BackUpKeeps(d, listing, oldKey, at, n);
    }
  }

  lemma AllRekeyed(d: Drive, listing: seq<string>, oldKey: Key, key: Key, at: string -> Fate)
    requires Lists(listing, d.files)
    ensures var r := RekeyAll(d, listing, oldKey, key, at);
            r.ok ==> AllUnder(d.files, r.drive.files, oldKey, key)
  {
    hide RekeyAll;
    forall n | n in d.files
      ensures var r := RekeyAll(d, listing, oldKey, key, at);
              r.ok ==> UnderOld(d.files[n], oldKey) && Visible(r.drive.files[n]) == Sealed(key, Visible(d.files[n]).content)
    {
      RekeyChanges(d, listing, oldKey, key, at, n);
    }
  }

  lemma AllRestored(d: Drive, listing: seq<string>, at: string -> Fate)
    requires Lists(listing, d.files)
    ensures var r := RestoreAll(d, listing, at);
            r.ok ==> forall n :: n in r.drive.files ==>
              r.drive.files[n] == File(BackupOr(d, n), if at(n).locked then d.files[n].wal else None)
  {
    hide RestoreAll, BackupOr;
    forall n | n in d.files
      ensures var r := RestoreAll(d, listing, at);
              r.ok ==> r.drive.files[n] == File(BackupOr(d, n), if at(n).locked then d.files[n].wal else None)
    {
      RestoreReturns(d, listing, at, n);
    }
  }

  /** The command's branches, with its loops by name. */
  lemma CommandCases(setup: Setup, d: Drive, listing: seq<string>, key: Key, luck: Luck)
    requires Lists(listing, d.files)
    ensures var b := BackUpAll(d, listing, setup.oldKey, luck.at);
            var r := RekeyAll(b.drive, listing, setup.oldKey, key, luck.at);
            var s := RestoreAll(r.drive, listing, luck.at);
            && AfterRekeying(setup, d, listing, key, luck) == r
            && Command(setup, d, listing, key, luck) ==
               if !setup.enabled then Outcome(d, Disabled)
               else if |listing| == 0 then Outcome(d, NoFiles)
               else if !luck.makesDir then Outcome(d, BackupFailed)
               else if !b.ok then Outcome(b.drive, BackupFailed)
               else if !r.ok then Outcome(s.drive, if s.ok then Restored else RestoreFailed)
               else if setup.source == Elsewhere then Outcome(r.drive, Done(Some(key)))
               else if luck.writesKey then Outcome(r.drive.(keyFile := Holds(key)), Done(None))
               else Outcome(r.drive.(keyFile := luck.keyLeft), KeyWriteFailed)
  {
    hide BackUpAll, RekeyAll, RestoreAll;
  }

  /** One file through the phases, each ending well or not. */
  predicate Passes(was: File, oldKey: Key, key: Key, fate: Fate, n: string, b: Step, r: Step, s: Step)
    requires n in b.drive.files && n in r.drive.files && n in s.drive.files
  {
    && Visible(b.drive.files[n]) == Visible(was)
    && (b.ok ==> UnderOld(was, oldKey) && n in b.drive.backups && b.drive.backups[n] == Visible(was))
    && (r.ok ==> UnderOld(was, oldKey) && Visible(r.drive.files[n]) == Sealed(key, Visible(was).content))
    && (b.ok && s.ok ==> RestoredAs(was, r.drive.files[n], s.drive.files[n], fate.locked))
  }

  lemma OneFile(setup: Setup, d: Drive, listing: seq<string>, key: Key, luck: Luck, n: string)
    requires Lists(listing, d.files) && n in d.files
    ensures var b := BackUpAll(d, listing, setup.oldKey, luck.at);
            var r := RekeyAll(b.drive, listing, setup.oldKey, key, luck.at);
            var s := RestoreAll(r.drive, listing, luck.at);
            Passes(d.files[n], setup.oldKey, key, luck.at(n), n, b, r, s)
  {
    KeepsListing(d, listing, setup.oldKey, key, luck.at);
    hide BackUpAll, RekeyAll, RestoreAll;
    var b := BackUpAll(d, listing, setup.oldKey, luck.at);
    var r := RekeyAll(b.drive, listing, setup.oldKey, key, luck.at);
    BackUpKeeps(d, listing, setup.oldKey, luck.at, n);
    RekeyChanges(b.drive, listing, setup.oldKey, key, luck.at, n);
    RestoreReturns(r.drive, listing, luck.at, n);
  }

  /** The phases, as far as the promises are concerned. */
  predicate Phases(d: Drive, b: Step, r: Step, s: Step) {
    && d.files.Keys == b.drive.files.Keys == r.drive.files.Keys == s.drive.files.Keys
    && b.drive.backups == r.drive.backups == s.drive.backups
    && d.keyFile == b.drive.keyFile == r.drive.keyFile == s.drive.keyFile
  }

  lemma BackupFailedHolds(setup: Setup, d: Drive, b: Step, r: Step, s: Step, key: Key, at: string -> Fate, some: string)
    requires Phases(d, b, r, s) && setup.enabled && some in d.files
    requires forall n :: n in d.files ==> Passes(d.files[n], setup.oldKey, key, at(n), n, b, r, s)
    ensures Promises(setup, d, r.drive, b.drive, BackupFailed, key, at)
  {
    hide RestoredAs, UnderOld;
  }

  lemma RestoreHolds(setup: Setup, d: Drive, b: Step, r: Step, s: Step, key: Key, at: string -> Fate, some: string)
    requires Phases(d, b, r, s) && setup.enabled && some in d.files && b.ok
    requires forall n :: n in d.files ==> Passes(d.files[n], setup.oldKey, key, at(n), n, b, r, s)
    ensures Promises(setup, d, r.drive, s.drive, if s.ok then Restored else RestoreFailed, key, at)
  {
    hide RestoredAs, UnderOld;
  }

  lemma KeyWriteFailedHolds(setup: Setup, d: Drive, b: Step, r: Step, s: Step, key: Key, at: string -> Fate, some: string, left: KeyText)
    requires Phases(d, b, r, s) && setup.enabled && some in d.files && b.ok && r.ok && setup.source == KeyFile
    requires forall n :: n in d.files ==> Passes(d.files[n], setup.oldKey, key, at(n), n, b, r, s)
    ensures Promises(setup, d, r.drive, r.drive.(keyFile := left), KeyWriteFailed, key, at)
  {
    hide RestoredAs, UnderOld;
  }

  lemma DoneHolds(setup: Setup, d: Drive, b: Step, r: Step, s: Step, key: Key, at: string -> Fate, some: string)
    requires Phases(d, b, r, s) && setup.enabled && some in d.files && b.ok && r.ok
    requires forall n :: n in d.files ==> Passes(d.files[n], setup.oldKey, key, at(n), n, b, r, s)
    ensures if setup.source == KeyFile then Promises(setup, d, r.drive, r.drive.(keyFile := Holds(key)), Done(None), key, at)
            else Promises(setup, d, r.drive, r.drive, Done(Some(key)), key, at)
  {
    hide RestoredAs, UnderOld;
  }

  lemma UntouchedHolds(setup: Setup, d: Drive, aborted: Drive, key: Key, at: string -> Fate, exit: Exit)
    requires d.files.Keys == aborted.files.Keys
    requires exit == if !setup.enabled then Disabled else if d.files == map[] then NoFiles else BackupFailed
    ensures Promises(setup, d, aborted, d, exit, key, at)
  {
    hide RestoredAs, UnderOld;
  }

  lemma CommandHolds(setup: Setup, d: Drive, listing: seq<string>, key: Key, luck: Luck)
    requires Lists(listing, d.files)
    ensures AllOrNothing(setup, d, listing, key, luck)
  {
    CommandCases(setup, d, listing, key, luck);
    assert |listing| > 0 ==> listing[0] in d.files;
    hide BackUpAll, RekeyAll, RestoreAll, Command, AfterRekeying, Passes, Promises;
    var b := BackUpAll(d, listing, setup.oldKey, luck.at);
    var r := RekeyAll(b.drive, listing, setup.oldKey, key, luck.at);
    var s := RestoreAll(r.drive, listing, luck.at);
    forall n | n in d.files
      ensures Passes(d.files[n], setup.oldKey, key, luck.at(n), n, b, r, s)
    {
      OneFile(setup, d, listing, key, luck, n);
    }
    if !setup.enabled || |listing| == 0 || !luck.makesDir {
      UntouchedHolds(setup, d, r.drive, key, luck.at, Command(setup, d, listing, key, luck).exit);
    } else {
      if !b.ok {
        BackupFailedHolds(setup, d, b, r, s, key, luck.at, listing[0]);
      } else if !r.ok {
        RestoreHolds(setup, d, b, r, s, key, luck.at, listing[0]);
      } else {
        DoneHolds(setup, d, b, r, s, key, luck.at, listing[0]);
        if setup.source == KeyFile {
          KeyWriteFailedHolds(setup, d, b, r, s, key, luck.at, listing[0], luck.keyLeft);
        }
      }
    }
  }

  /** When the command aborted and restored, an original shows exactly if its log
      could be removed, or the abort left no log with other pages beside it. */
  lemma RestoredExactlyWhen(setup: Setup, d: Drive, listing: seq<string>, key: Key, luck: Luck, n: string)
    requires Lists(listing, d.files) && n in d.files
    requires Command(setup, d, listing, key, luck).exit.Restored?
    ensures var now := Command(setup, d, listing, key, luck).drive.files[n];
            var aborted := AfterRekeying(setup, d, listing, key, luck).drive.files[n];
            && now.main == Visible(d.files[n])
            && (Visible(now) == Visible(d.files[n]) <==>
                !luck.at(n).locked || aborted.wal.None? || aborted.wal.value == Visible(d.files[n]))
  {
    hide BackUpAll, RekeyAll, RestoreAll;
    CommandCases(setup, d, listing, key, luck);
    OneFile(setup, d, listing, key, luck, n);
  }

  // ---- How the command ends -------------------------------------------------

  /** The file is not under the old key, or opening or copying it fails. */
  predicate BackupBreaks(f: File, oldKey: Key, fate: Fate) {
    !UnderOld(f, oldKey) || !fate.opens || !fate.copies
  }

  /** Opening a file again, rekeying it or reading it back fails. */
  predicate RekeyBreaks(fate: Fate) {
    !fate.reopens || !fate.rekeys
  }

  lemma OneBackup(d: Drive, n: string, oldKey: Key, fate: Fate)
    requires n in d.files
    ensures BackUpOne(d, n, oldKey, fate).ok <==> !BackupBreaks(d.files[n], oldKey, fate)
  {
  }

  lemma OneRekey(d: Drive, n: string, oldKey: Key, key: Key, fate: Fate)
    requires n in d.files && UnderOld(d.files[n], oldKey)
    ensures RekeyOne(d, n, oldKey, key, fate).ok <==> !RekeyBreaks(fate)
  {
  }

  lemma {:induction false} BackUpEndsWell(d: Drive, listing: seq<string>, oldKey: Key, at: string -> Fate)
    requires Listed(listing, d.files)
    ensures BackUpAll(d, listing, oldKey, at).ok <==>
            forall i :: 0 <= i < |listing| ==> !BackupBreaks(d.files[listing[i]], oldKey, at(listing[i]))
  {
    if listing != [] {
      var front, last := listing[..|listing| - 1], listing[|listing| - 1];
      assert forall i :: 0 <= i < |front| ==> front[i] == listing[i];
      BackUpEndsWell(d, front, oldKey, at);
      BackUpKeeps(d, front, oldKey, at, last);
      var before := BackUpAll(d, front, oldKey, at);
      OneBackup(before.drive, last, oldKey, at(last));
      hide BackUpOne, Visible;
      assert UnderOld(before.drive.files[last], oldKey) <==> UnderOld(d.files[last], oldKey);
    }
  }

  lemma {:induction false} RekeyEndsWell(d: Drive, listing: seq<string>, oldKey: Key, key: Key, at: string -> Fate)
    requires Listed(listing, d.files) && forall i :: 0 <= i < |listing| ==> UnderOld(d.files[listing[i]], oldKey)
    ensures RekeyAll(d, listing, oldKey, key, at).ok <==> forall i :: 0 <= i < |listing| ==> !RekeyBreaks(at(listing[i]))
  {
    if listing != [] {
      var front, last := listing[..|listing| - 1], listing[|listing| - 1];
      assert forall i :: 0 <= i < |front| ==> front[i] == listing[i];
      assert last !in front;
      RekeyEndsWell(d, front, oldKey, key, at);
      RekeyChanges(d, front, oldKey, key, at, last);
      OneRekey(RekeyAll(d, front, oldKey, key, at).drive, last, oldKey, key, at(last));
      hide RekeyOne, UnderOld, RekeyBreaks;
    }
  }

  lemma {:induction false} RestoreEndsWell(d: Drive, listing: seq<string>, at: string -> Fate)
    requires Listed(listing, d.files)
    ensures RestoreAll(d, listing, at).ok <==> forall i :: 0 <= i < |listing| ==> at(listing[i]).restores
  {
    if listing != [] {
      var front := listing[..|listing| - 1];
      assert forall i :: 0 <= i < |front| ==> front[i] == listing[i];
      RestoreEndsWell(d, front, at);
    }
  }

  /** The exit, from what the drive holds and how each step turns out alone: the
      command is done if nothing fails, and every other exit has its failing step. */
  lemma ExitExactlyWhen(setup: Setup, d: Drive, listing: seq<string>, key: Key, luck: Luck)
    requires Lists(listing, d.files)
    ensures Command(setup, d, listing, key, luck).exit ==
            if !setup.enabled then Disabled
            else if d.files == map[] then NoFiles
            else if !luck.makesDir || exists n :: n in d.files && BackupBreaks(d.files[n], setup.oldKey, luck.at(n)) then BackupFailed
            else if exists n :: n in d.files && RekeyBreaks(luck.at(n)) then
              if exists n :: n in d.files && !luck.at(n).restores then RestoreFailed else Restored
            else if setup.source == Elsewhere then Done(Some(key))
            else if luck.writesKey then Done(None)
            else KeyWriteFailed
  {
    CommandCases(setup, d, listing, key, luck);
    KeepsListing(d, listing, setup.oldKey, key, luck.at);
    ListingIs(listing, d.files);
    hide BackUpAll, RekeyAll, RestoreAll, Command, AfterRekeying, BackupBreaks, RekeyBreaks, Lists, Listed;
    BackUpEndsWell(d, listing, setup.oldKey, luck.at);
    var b := BackUpAll(d, listing, setup.oldKey, luck.at);
    if b.ok {
      forall i | 0 <= i < |listing|
        ensures listing[i] in b.drive.files && UnderOld(b.drive.files[listing[i]], setup.oldKey)
      {
        StillUnder(d, listing, setup.oldKey, luck.at, listing[i]);
      }
      RekeyEndsWell(b.drive, listing, setup.oldKey, key, luck.at);
      RestoreEndsWell(RekeyAll(b.drive, listing, setup.oldKey, key, luck.at).drive, listing, luck.at);
    }
  }

  lemma ListingIs(listing: seq<string>, files: map<string, File>)
    requires Lists(listing, files)
    ensures forall n :: n in files <==> exists i :: 0 <= i < |listing| && listing[i] == n
    ensures files == map[] <==> |listing| == 0
  {
    assert |listing| > 0 ==> listing[0] in files;
  }

  lemma StillUnder(d: Drive, listing: seq<string>, oldKey: Key, at: string -> Fate, n: string)
    requires Lists(listing, d.files) && n in d.files && BackUpAll(d, listing, oldKey, at).ok
    ensures UnderOld(BackUpAll(d, listing, oldKey, at).drive.files[n], oldKey)
  {
    BackUpKeeps(d, listing, oldKey, at, n);
    hide BackUpAll, Visible;
  }

  // ---- Which key is left ----------------------------------------------------

  /** A key that the operator has after the command: the key file's, one kept
      elsewhere, or one that was printed. */
  predicate AtHand(setup: Setup, now: Drive, exit: Exit, k: Key) {
    || (setup.source == KeyFile && now.keyFile == Holds(k))
    || (setup.source == Elsewhere && k == setup.oldKey)
    || exit == Done(Some(k))
  }

  predicate Opens(now: Drive, n: string, k: Key, content: string) {
    || (n in now.files && Visible(now.files[n]) == Sealed(k, content))
    || (n in now.backups && now.backups[n] == Sealed(k, content))
  }

  /** Whatever the exit, some key at hand opens a copy of each original, except
      exactly when writing the key file failed and left neither the old key nor
      the new one in it. */
  lemma KeyAtHandExactlyWhen(setup: Setup, d: Drive, listing: seq<string>, key: Key, luck: Luck, n: string)
    requires Lists(listing, d.files) && n in d.files && UnderOld(d.files[n], setup.oldKey)
    requires setup.source == KeyFile ==> d.keyFile == Holds(setup.oldKey)
    ensures var r := Command(setup, d, listing, key, luck);
            (exists k :: AtHand(setup, r.drive, r.exit, k) && Opens(r.drive, n, k, Visible(d.files[n]).content)) <==>
            !(r.exit.KeyWriteFailed? && luck.keyLeft != Holds(setup.oldKey) && luck.keyLeft != Holds(key))
  {
    hide BackUpAll, RekeyAll, RestoreAll;
    CommandCases(setup, d, listing, key, luck);
    OneFile(setup, d, listing, key, luck, n);
    var r := Command(setup, d, listing, key, luck);
    var content := Visible(d.files[n]).content;
    if r.exit.Done? {
      assert AtHand(setup, r.drive, r.exit, key) && Opens(r.drive, n, key, content);
    } else if r.exit.KeyWriteFailed? {
      if luck.keyLeft == Holds(key) {
        assert AtHand(setup, r.drive, r.exit, key) && Opens(r.drive, n, key, content);
      } else if luck.keyLeft == Holds(setup.oldKey) {
        assert AtHand(setup, r.drive, r.exit, setup.oldKey) && Opens(r.drive, n, setup.oldKey, content);
      }
    } else {
      assert AtHand(setup, r.drive, r.exit, setup.oldKey) && Opens(r.drive, n, setup.oldKey, content);
    }
  }

  // ---- A run that hides an original -----------------------------------------

  const ORIGINAL := Sealed("old", "ledger")

  /** Everything works except that rekeying fails, leaving a log of its own, and
      that this log cannot be removed. */
  const UNLUCKY := Luck(true, n => Fate(true, false, true, Damaged, true, false, false, File(Damaged, Some(Damaged)), true, true, Damaged), true, Garbled)

  /** The command ends by saying that it restored everything; the file does hold
      its original again, and yet does not open. */
  lemma RestoredButHidden()
    ensures var d := Drive(map["ledger.db" := File(ORIGINAL, None)], map[], Holds("old"));
            var r := Command(Setup(true, KeyFile, "old"), d, ["ledger.db"], "new", UNLUCKY);
            r.exit == Restored && r.drive.files["ledger.db"] == File(ORIGINAL, Some(Damaged)) && Visible(r.drive.files["ledger.db"]) == Damaged
  {
    var n, setup := "ledger.db", Setup(true, KeyFile, "old");
    var d := Drive(map[n := File(ORIGINAL, None)], map[], Holds("old"));
    var listing := [n];
    assert listing[..0] == [];
    CommandCases(setup, d, listing, "new", UNLUCKY);
    hide Command, AfterRekeying;
    var fate := UNLUCKY.at(n);
    var b := BackUpAll(d, listing, "old", UNLUCKY.at);
    assert BackUpAll(d, [], "old", UNLUCKY.at) == Step(d, true);
    assert b == BackUpOne(d, n, "old", fate);
    assert b.ok && b.drive.backups[n] == ORIGINAL && b.drive.files[n] == File(ORIGINAL, None);
    var r := RekeyAll(b.drive, listing, "old", "new", UNLUCKY.at);
    assert RekeyAll(b.drive, [], "old", "new", UNLUCKY.at) == Step(b.drive, true);
    assert r == RekeyOne(b.drive, n, "old", "new", fate);
    assert !r.ok && r.drive.files[n] == File(Damaged, Some(Damaged));
    assert RestoreAll(r.drive, [], UNLUCKY.at) == Step(r.drive, true);
    assert RestoreAll(r.drive, listing, UNLUCKY.at) == RestoreOne(r.drive, n, fate);
  }

  // ---- The command ----------------------------------------------------------

  /** The machine's disk during the command. */
  class Disk {
    const setup: Setup
    var files: map<string, File>
    var backups: map<string, Image>
    var keyFile: KeyText

    constructor (setup: Setup, files: map<string, File>, keyFile: KeyText)
      ensures this.setup == setup && Contents() == Drive(files, map[], keyFile)
    {
      this.setup := setup;
      this.files, this.backups, this.keyFile := files, map[], keyFile;
    }

    function Contents(): Drive
      reads this
    {
      Drive(files, backups, keyFile)
    }

    method BackUpFile(n: string, fate: Fate) returns (ok: bool)
      requires n in files
      modifies `files, `backups
      ensures Step(Contents(), ok) == BackUpOne(old(Contents()), n, setup.oldKey, fate)
    {
      if fate.folds {
        files := files[n := File(Visible(files[n]), None)];
      }
      assert files == old(files)[n := Opened(old(files)[n], fate.folds)];
      if !(fate.opens && UnderOld(files[n], setup.oldKey)) {
        return false;
      }
      backups := backups[n := if fate.copies then Visible(files[n]) else fate.partial];
      return fate.copies;
    }

    method BackUpEach(listing: seq<string>, at: string -> Fate) returns (ok: bool)
      requires Lists(listing, files)
      modifies `files, `backups
      ensures Step(Contents(), ok) == BackUpAll(old(Contents()), listing, setup.oldKey, at)
      ensures AllVisible(old(files), files)
      ensures ok ==> AllBackedUp(old(files), backups, setup.oldKey)
    {
      hide BackUpAll, BackUpOne, AllVisible, AllBackedUp, Lists, Listed, Visible, UnderOld;
      AllBackUps(Contents(), listing, setup.oldKey, at);
      KeepsListing(Contents(), listing, setup.oldKey, "", at);
      NoneBackedUp(Contents(), listing, setup.oldKey, at);
      ok := true;
      ghost var start := Contents();
      for i := 0 to |listing|
        invariant ok && files.Keys == old(files).Keys
        invariant Step(Contents(), true) == BackUpAll(start, listing[..i], setup.oldKey, at)
      {
        BackUpGrows(start, listing, i, setup.oldKey, at);
        assert listing[i] in files by {
          ListedAt(listing, start.files, i);
        }
        ok := BackUpFile(listing[i], at(listing[i]));
        if !ok {
          BackUpStops(start, listing, i + 1, setup.oldKey, at);
          return;
        }
      }
      assert listing[..|listing|] == listing;
    }

    method RekeyFile(n: string, key: Key, fate: Fate) returns (ok: bool)
      requires n in files
      modifies `files
      ensures Step(Contents(), ok) == RekeyOne(old(Contents()), n, setup.oldKey, key, fate)
    {
      if fate.refolds {
        files := files[n := File(Visible(files[n]), None)];
      }
      assert files == old(files)[n := Opened(old(files)[n], fate.refolds)];
      if !(fate.reopens && UnderOld(files[n], setup.oldKey)) {
        return false;
      }
      if fate.rekeys {
        var image := Sealed(key, Visible(files[n]).content);
        files := files[n := if fate.after.wal.Some? then fate.after.(wal := Some(image)) else File(image, None)];
      } else {
        files := files[n := fate.after];
      }
      return fate.rekeys;
    }

    method RekeyEach(listing: seq<string>, key: Key, at: string -> Fate) returns (ok: bool)
      requires Lists(listing, files)
      modifies `files
      ensures Step(Contents(), ok) == RekeyAll(old(Contents()), listing, setup.oldKey, key, at)
      ensures files.Keys == old(files).Keys
      ensures ok ==> AllUnder(old(files), files, setup.oldKey, key)
    {
      AllRekeyed(Contents(), listing, setup.oldKey, key, at);
      hide AllUnder, UnderOld, Visible, RekeyOne;
      ok := true;
      ghost var start := Contents();
      for i := 0 to |listing|
        invariant ok && files.Keys == old(files).Keys
        invariant Step(Contents(), true) == RekeyAll(start, listing[..i], setup.oldKey, key, at)
      {
        assert listing[..i + 1][..i] == listing[..i];
        ok := RekeyFile(listing[i], key, at(listing[i]));
        if !ok {
          RekeyStops(start, listing, i + 1, setup.oldKey, key, at);
          return;
        }
      }
      assert listing[..|listing|] == listing;
    }

    method RestoreFile(n: string, fate: Fate) returns (ok: bool)
      requires n in files
      modifies `files
      ensures Step(Contents(), ok) == RestoreOne(old(Contents()), n, fate)
    {
      if !fate.locked {
        files := files[n := files[n].(wal := None)];
      }
      files := files[n := files[n].(main := if fate.restores then BackupOr(Contents(), n) else fate.torn)];
      return fate.restores;
    }

    method RestoreEach(listing: seq<string>, at: string -> Fate) returns (ok: bool)
      requires Lists(listing, files)
      modifies `files
      ensures Step(Contents(), ok) == RestoreAll(old(Contents()), listing, at)
      ensures files.Keys == old(files).Keys
      ensures ok ==> forall n :: n in files ==>
                files[n] == File(BackupOr(Contents(), n), if at(n).locked then old(files)[n].wal else None)
    {
      AllRestored(Contents(), listing, at);
      ok := true;
      ghost var start := Contents();
      for i := 0 to |listing|
        invariant ok && files.Keys == old(files).Keys
        invariant Step(Contents(), true) == RestoreAll(start, listing[..i], at)
      {
        assert listing[..i + 1][..i] == listing[..i];
        hide RestoreOne;
        ok := RestoreFile(listing[i], at(listing[i]));
        if !ok {
          RestoreStops(start, listing, i + 1, at);
          return;
        }
      }
      assert listing[..|listing|] == listing;
    }

    /** The whole command. `listing` is what the data directory holds and `key`
        the fresh key; whatever fails, it is all or nothing as far as said below. */
    method Run(listing: seq<string>, key: Key, luck: Luck) returns (exit: Exit)
      requires Lists(listing, files)
      modifies this
      ensures Outcome(Contents(), exit) == Command(setup, old(Contents()), listing, key, luck)
      ensures AllOrNothing(setup, old(Contents()), listing, key, luck)
    {
      CommandHolds(setup, Contents(), listing, key, luck);
      hide *;
      CommandCases(setup, Contents(), listing, key, luck);
      if !setup.enabled {
        return Disabled;
      }
      if |listing| == 0 {
        return NoFiles;
      }
      if !luck.makesDir {
        return BackupFailed;
      }
      KeepsListing(Contents(), listing, setup.oldKey, key, luck.at);
      var backedUp := BackUpEach(listing, luck.at);
      if !backedUp {
        return BackupFailed;
      }
      var rekeyed := RekeyEach(listing, key, luck.at);
      if !rekeyed {
        var restored := RestoreEach(listing, luck.at);
        return if restored then Restored else RestoreFailed;
      }
      match setup.source {
        case KeyFile =>
          if luck.writesKey {
            keyFile := Holds(key);
            return Done(None);
          }
          keyFile := luck.keyLeft;
          return KeyWriteFailed;
        case Elsewhere =>
          return Done(Some(key));
      }
    }
  }
}
