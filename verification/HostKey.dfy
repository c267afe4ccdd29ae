/** Loading or creating the host key, internal/sshserver/hostkey.go, over a file system that can lose what was not
    flushed.  Every call may fail, and the process may die at any call; after a power loss a directory entry is what it
    was when last flushed or what it was at the end, and the contents of a file never flushed are anything at all.
    The key's directory has an entry of its own, which a start may create and never flushes. */
module HostKey {
  import opened Bytes
  import opened Options

  type Name = string
  type Key = seq<Byte>

  /** `parse` is gossh.ParsePrivateKey, `path` the configured host key path. */
  datatype Env = Env(path: Name, parse: seq<Byte> -> Option<Key>)

  /** `flushed`: the contents are on stable storage. */
  datatype File = File(contents: seq<Byte>, flushed: bool)

  /** Files are known by number; `entries` is the key's directory as processes see it, `durable` as it was last flushed.
      `dir`: the directory exists; `dirDurable`: so it does on stable storage, with all directories above it. */
  datatype Disk = Disk(
    files: seq<File>, entries: map<Name, nat>, durable: map<Name, nat>, dir: bool, dirDurable: bool)

  /** What becomes of one call: it succeeds, it returns an error, or the process dies in it. */
  datatype Fate = Ok | Fails | Dies

  /** The fate of every call of one start, the key it would generate, the name CreateTemp picks, and how many bytes an
      unsuccessful write gets out. */
  datatype Plan = Plan(
    read: Fate, generated: Option<seq<Byte>>, mkdir: Fate, create: Fate, tmp: Name, chmod: Fate, write: Fate,
    written: nat, sync: Fate, close: Fate, rename: Fate, remove: Fate, openDir: Fate, syncDir: Fate)

  datatype Outcome = Loaded(key: Key, generated: bool) | Error | Died

  // ---- the file system

  /** MkdirAll: nothing, if the directory is there. */
  function MadeDir(d: Disk): Disk {
    if d.dir then d else d.(entries := map[], durable := map[], dir := true, dirDurable := false)
  }

  function Created(d: Disk, name: Name): Disk {
    d.(files := d.files + [File([], false)], entries := d.entries[name := |d.files|])
  }

  function Wrote(d: Disk, file: nat, contents: seq<Byte>): Disk
    requires file < |d.files|
  {
    d.(files := d.files[file := File(contents, false)])
  }

  function Flushed(d: Disk, file: nat): Disk
    requires file < |d.files|
  {
    d.(files := d.files[file := d.files[file].(flushed := true)])
  }

  function Renamed(d: Disk, from: Name, to: Name): Disk
    requires from in d.entries
  {
    d.(entries := (d.entries - {from})[to := d.entries[from]])
  }

  function Removed(d: Disk, name: Name): Disk {
    d.(entries := d.entries - {name})
  }

  function DirFlushed(d: Disk): Disk {
    d.(durable := d.entries)
  }

  /** What one power loss does: names in `kept` come back as they were at the end, all others as they were last flushed,
      and a directory whose own entry is not on stable storage comes back only if `dirKept`. */
  datatype Loss = Loss(kept: set<Name>, dirKept: bool, garbage: nat -> seq<Byte>)

  function PowerLost(d: Disk, loss: Loss): Disk {
    var files := seq(|d.files|, i requires 0 <= i < |d.files| =>
                   if d.files[i].flushed then d.files[i] else File(loss.garbage(i), true));
    if d.dir && !d.dirDurable && !loss.dirKept then Disk(files, map[], map[], false, false)
    else
      var survivors := map n | n in d.entries.Keys + d.durable.Keys
                               && (if n in loss.kept then n in d.entries else n in d.durable)
                       :: if n in loss.kept then d.entries[n] else d.durable[n];
      Disk(files, survivors, survivors, d.dir, d.dir)
  }

  // ---- what must hold of the path at every moment, crashes included

  /** File `i` survives any power loss unchanged. */
  ghost predicate Stable(d: Disk, i: nat) {
    i < |d.files| && d.files[i].flushed
  }

  /** The path is absent, or holds a file that no crash can tear; and once flushed its entry stays. */
  ghost predicate Sane(env: Env, d: Disk) {
    && (env.path in d.entries ==> Stable(d, d.entries[env.path]))
    && (env.path in d.durable ==> env.path in d.entries && d.entries[env.path] == d.durable[env.path])
    && (forall n :: n in d.entries ==> d.entries[n] < |d.files|)
    && (forall n :: n in d.durable ==> d.durable[n] < |d.files|)
    && (!d.dir ==> d.entries == map[] && d.durable == map[] && !d.dirDurable)
  }

  /** What a process reads at the path. */
  function AtPath(env: Env, d: Disk): Option<seq<Byte>> {
    if env.path in d.entries && d.entries[env.path] < |d.files| then Some(d.files[d.entries[env.path]].contents)
    else None
  }

  /** The key's entry was flushed, in a directory that is itself on stable storage. */
  predicate IsDurable(env: Env, d: Disk) {
    env.path in d.durable && d.dirDurable
  }

  /** A power loss leaves the path as it was, or, if it was not durable, absent: never anything else. */
  lemma PowerLossIsClean(env: Env, d: Disk, loss: Loss)
    requires Sane(env, d)
    ensures var d' := PowerLost(d, loss);
      && Sane(env, d')
      && (AtPath(env, d') == AtPath(env, d) || (AtPath(env, d').None? && !IsDurable(env, d)))
      && (AtPath(env, d').Some? ==> IsDurable(env, d'))
      && (IsDurable(env, d) ==> AtPath(env, d') == AtPath(env, d) && IsDurable(env, d'))
      && (d.dirDurable ==> d'.dirDurable)
  {
  }

  /** A key survives whatever power loss may come if and only if its entry was flushed and the directory's own entry is
      on stable storage. */
  lemma SurvivesIff(env: Env, d: Disk)
    requires Sane(env, d) && AtPath(env, d).Some?
    ensures env.path in d.durable && d.dirDurable <==> forall loss :: AtPath(env, PowerLost(d, loss)) == AtPath(env, d)
  {
    if IsDurable(env, d) {
      forall loss ensures AtPath(env, PowerLost(d, loss)) == AtPath(env, d) {
        PowerLossIsClean(env, d, loss);
      }
    } else {
      assert AtPath(env, PowerLost(d, Loss({}, false, _ => []))).None?;
    }
  }

  /** Why the flush comes before the rename: an entry for a file not flushed can survive with any contents. */
  lemma UnflushedRenameTears(env: Env, d: Disk, tmp: Name, torn: seq<Byte>)
    requires tmp in d.entries && d.entries[tmp] < |d.files| && !d.files[d.entries[tmp]].flushed
    ensures AtPath(env, PowerLost(Renamed(d, tmp, env.path), Loss({env.path}, true, _ => torn))) == Some(torn)
  {
  }

  // ---- one start, as a function of the disk and of what becomes of its calls

  datatype Result = Result(disk: Disk, fate: Fate)

  datatype Started = Started(disk: Disk, outcome: Outcome)

  /** The deferred Close counts only if nothing failed before, but the process can die in it. */
  function AfterClose(fate: Fate, plan: Plan): Fate {
    if fate != Dies && (fate == Ok || plan.close == Dies) then plan.close else fate
  }

  function TempWritten(d: Disk, file: nat, contents: seq<Byte>, plan: Plan): Result
    requires file < |d.files|
  {
    if plan.chmod != Ok then Result(d, AfterClose(plan.chmod, plan))
    else
      var n := if plan.write == Ok || plan.written > |contents| then |contents| else plan.written;
      var wrote := Wrote(d, file, contents[..n]);
      if plan.write != Ok then Result(wrote, AfterClose(plan.write, plan))
      else if plan.sync != Ok then Result(wrote, AfterClose(plan.sync, plan))
      else Result(Flushed(wrote, file), AfterClose(Ok, plan))
  }

  function DirSynced(d: Disk, plan: Plan): Result {
    if plan.openDir != Ok then Result(d, if plan.openDir == Dies then Dies else Ok)
    else if plan.syncDir == Dies then Result(d, Dies)
    else Result(if plan.syncDir == Ok then DirFlushed(d) else d, Ok)
  }

  function Installed(env: Env, d: Disk, contents: seq<Byte>, plan: Plan): Result {
    if plan.create != Ok || plan.tmp in d.entries then Result(d, if plan.create == Dies then Dies else Fails)
    else
      var temp := TempWritten(Created(d, plan.tmp), |d.files|, contents, plan);
      var fate := if temp.fate == Ok then plan.rename else temp.fate;
      if fate == Ok then DirSynced(Renamed(temp.disk, plan.tmp, env.path), plan)
      else if fate == Dies || plan.remove == Dies then Result(temp.disk, Dies)
      else Result(if plan.remove == Ok then Removed(temp.disk, plan.tmp) else temp.disk, Fails)
  }

  function Failed(fate: Fate): Outcome {
    if fate == Dies then Died else Error
  }

  function Parsed(env: Env, contents: seq<Byte>, generated: bool): Outcome {
    match env.parse(contents)
    case Some(key) => Loaded(key, generated)
    case None => Error
  }

  function Start(env: Env, d: Disk, plan: Plan): Started {
    if plan.read != Ok then Started(d, Failed(plan.read))
    else if AtPath(env, d).Some? then Started(d, Parsed(env, AtPath(env, d).value, false))
    else if plan.generated.None? then Started(d, Error)
    else if plan.mkdir != Ok then Started(d, Failed(plan.mkdir))
    else
      var done := Installed(env, MadeDir(d), plan.generated.value, plan);
      Started(done.disk, if done.fate == Ok then Parsed(env, plan.generated.value, true) else Failed(done.fate))
  }

  // ---- the program

  class FileSystem {
    var disk: Disk

    constructor (d: Disk)
      ensures disk == d
    {
      disk := d;
    }
  }

  /** `writeAndSync`: returns whether the temporary file holds the contents, flushed. */
  method WriteAndSync(fs: FileSystem, file: nat, contents: seq<Byte>, plan: Plan) returns (fate: Fate)
    requires file < |fs.disk.files|
    modifies fs
    ensures Result(fs.disk, fate) == TempWritten(old(fs.disk), file, contents, plan)
    ensures fs.disk.entries == old(fs.disk.entries) && fs.disk.durable == old(fs.disk.durable)
    ensures |fs.disk.files| == |old(fs.disk.files)|
    ensures forall i :: 0 <= i < |fs.disk.files| && i != file ==> fs.disk.files[i] == old(fs.disk.files)[i]
    ensures fate == Ok ==> fs.disk.files[file] == File(contents, true)
    ensures fate == Ok <==> plan.chmod == Ok && plan.write == Ok && plan.sync == Ok && plan.close == Ok
  {
    fate := plan.chmod;
    if fate == Ok {
      fate := plan.write;
      var n := if fate == Ok || plan.written > |contents| then |contents| else plan.written;
      fs.disk := Wrote(fs.disk, file, contents[..n]);
      assert contents[..|contents|] == contents;
    }
    if fate == Ok {
      fate := plan.sync;
      if fate == Ok {
        fs.disk := Flushed(fs.disk, file);
      }
    }
    if fate != Dies && (fate == Ok || plan.close == Dies) {
      fate := plan.close;
    }
  }

  /** `syncDir`: its failure is not the caller's. */
  method SyncDir(fs: FileSystem, plan: Plan) returns (fate: Fate)
    modifies fs
    ensures Result(fs.disk, fate) == DirSynced(old(fs.disk), plan)
    ensures fate != Fails
    ensures plan.openDir == Ok && plan.syncDir == Ok ==> fate == Ok && fs.disk.durable == fs.disk.entries
    ensures fs.disk.(durable := old(fs.disk.durable)) == old(fs.disk)
  {
    if plan.openDir != Ok {
      return if plan.openDir == Dies then Dies else Ok;
    }
    if plan.syncDir == Dies {
      return Dies;
    }
    if plan.syncDir == Ok {
      fs.disk := DirFlushed(fs.disk);
    }
    fate := Ok;
  }

  /** `writeHostKeyAtomically`: the path changes, if at all, to the complete contents in one step. */
  method WriteHostKeyAtomically(env: Env, fs: FileSystem, contents: seq<Byte>, plan: Plan) returns (fate: Fate)
    modifies fs
    ensures Result(fs.disk, fate) == Installed(env, old(fs.disk), contents, plan)
    ensures Sane(env, old(fs.disk)) && old(fs.disk).dir && plan.tmp != env.path && env.path !in old(fs.disk).entries ==>
      InstallSound(env, old(fs.disk), contents, plan, fs.disk, fate)
  {
    InstallIsSound(env, fs.disk, contents, plan);
    if plan.create != Ok || plan.tmp in fs.disk.entries {
      return if plan.create == Dies then Dies else Fails;
    }
    var tmp := |fs.disk.files|;
    fs.disk := Created(fs.disk, plan.tmp);

    fate := WriteAndSync(fs, tmp, contents, plan);
    if fate == Ok {
      fate := plan.rename;
      if fate == Ok {
        fs.disk := Renamed(fs.disk, plan.tmp, env.path);
        fate := SyncDir(fs, plan);
        return;
      }
    }
    if fate == Fails {
      if plan.remove == Dies {
        return Dies;
      }
      if plan.remove == Ok {
        fs.disk := Removed(fs.disk, plan.tmp);
      }
    }
  }

  method LoadOrCreateHostKey(env: Env, fs: FileSystem, plan: Plan) returns (outcome: Outcome)
    modifies fs
    ensures Started(fs.disk, outcome) == Start(env, old(fs.disk), plan)
    ensures Sane(env, old(fs.disk)) && Proper(env, plan) ==> StartSound(env, old(fs.disk), plan, fs.disk, outcome)
  {
    StartIsSound(env, fs.disk, plan);
    if plan.read != Ok {
      return if plan.read == Dies then Died else Error;
    }
    if env.path in fs.disk.entries && fs.disk.entries[env.path] < |fs.disk.files| {
      var parsed := env.parse(fs.disk.files[fs.disk.entries[env.path]].contents);
      return if parsed.Some? then Loaded(parsed.value, false) else Error;
    }
    if plan.generated.None? {
      return Error;
    }
    if plan.mkdir != Ok {
      return if plan.mkdir == Dies then Died else Error;
    }
    fs.disk := MadeDir(fs.disk);
    var fate := WriteHostKeyAtomically(env, fs, plan.generated.value, plan);
    match fate
    case Dies => return Died;
    case Fails => return Error;
    case Ok =>
      var parsed := env.parse(plan.generated.value);
      outcome := if parsed.Some? then Loaded(parsed.value, true) else Error;
  }

  // ---- what one start may do

  /** The assumption about key generation: what is generated parses.  CreateTemp picks another name than the path. */
  ghost predicate Proper(env: Env, plan: Plan) {
    && plan.tmp != env.path
    && (plan.generated.Some? ==> env.parse(plan.generated.value).Some?)
  }

  predicate NothingFails(plan: Plan) {
    && plan.generated.Some? && plan.read == Ok && plan.mkdir == Ok && plan.create == Ok && plan.chmod == Ok
    && plan.write == Ok && plan.sync == Ok && plan.close == Ok && plan.rename == Ok
    && plan.openDir == Ok && plan.syncDir == Ok
  }

  predicate SomethingDies(plan: Plan) {
    || plan.read == Dies || plan.mkdir == Dies || plan.create == Dies || plan.chmod == Dies || plan.write == Dies
    || plan.sync == Dies || plan.close == Dies || plan.rename == Dies || plan.remove == Dies || plan.openDir == Dies
    || plan.syncDir == Dies
  }

  /** Every call that counts succeeds, and the process survives those that do not. */
  predicate InstallGoes(plan: Plan) {
    && plan.create == Ok && plan.chmod == Ok && plan.write == Ok && plan.sync == Ok && plan.close == Ok
    && plan.rename == Ok && plan.openDir != Dies && (plan.openDir == Ok ==> plan.syncDir != Dies)
  }

  /** The path is absent or complete whatever call fails or dies, other files are untouched, and the entry is flushed if
      the directory's flush went through. */
  ghost predicate InstallSound(env: Env, before: Disk, contents: seq<Byte>, plan: Plan, after: Disk, fate: Fate) {
    && Sane(env, after) && after.dir && after.dirDurable == before.dirDurable
    && (AtPath(env, after).None? || AtPath(env, after) == Some(contents))
    && (fate == Ok ==> AtPath(env, after) == Some(contents) && plan.tmp !in after.entries)
    && (fate == Ok ==> (env.path in after.durable <==> plan.openDir == Ok && plan.syncDir == Ok))
    && (fate == Fails ==> AtPath(env, after).None?)
    && (fate == Dies ==> SomethingDies(plan))
    && (fate == Ok <==> InstallGoes(plan) && plan.tmp !in before.entries)
    // a failed install cleans up after itself, as far as that succeeds
    && (fate == Fails && plan.remove == Ok && plan.tmp !in before.entries ==> after.entries == before.entries)
    && (forall n :: n in before.entries && n != plan.tmp ==>
          n in after.entries && after.entries[n] == before.entries[n])
    && |before.files| <= |after.files|
    && (forall i :: 0 <= i < |before.files| ==> after.files[i] == before.files[i])
  }

  /** The temporary file alone is written; if all went well it is complete and flushed. */
  lemma TempIsSound(d: Disk, file: nat, contents: seq<Byte>, plan: Plan)
    requires file < |d.files|
    ensures var r := TempWritten(d, file, contents, plan);
      && r.disk == d.(files := r.disk.files) && |r.disk.files| == |d.files|
      && (forall i :: 0 <= i < |d.files| && i != file ==> r.disk.files[i] == d.files[i])
      && (r.fate == Ok ==> r.disk.files[file] == File(contents, true))
      && (r.fate == Ok <==> plan.chmod == Ok && plan.write == Ok && plan.sync == Ok && plan.close == Ok)
      && (r.fate == Dies ==> SomethingDies(plan))
  {
    assert contents[..|contents|] == contents;
  }

  /** The directory before the install, with the temporary file in it. */
  ghost predicate HasTemp(env: Env, before: Disk, tmp: Name, d: Disk) {
    && Sane(env, before) && before.dir && env.path !in before.entries
    && tmp != env.path && tmp !in before.entries
    && d == Created(before, tmp).(files := d.files) && |d.files| == |before.files| + 1
    && (forall i :: 0 <= i < |before.files| ==> d.files[i] == before.files[i])
  }

  lemma RenameIsSound(env: Env, before: Disk, d: Disk, contents: seq<Byte>, plan: Plan)
    requires HasTemp(env, before, plan.tmp, d) && d.files[|before.files|] == File(contents, true)
    requires plan.create == Ok && plan.chmod == Ok && plan.write == Ok && plan.sync == Ok && plan.close == Ok
    requires plan.rename == Ok
    ensures var r := DirSynced(Renamed(d, plan.tmp, env.path), plan);
      InstallSound(env, before, contents, plan, r.disk, r.fate)
  {
  }

  lemma AbandonedIsSound(env: Env, before: Disk, d: Disk, contents: seq<Byte>, plan: Plan, fate: Fate)
    requires HasTemp(env, before, plan.tmp, d) && fate != Ok && !InstallGoes(plan)
    requires fate == Dies ==> SomethingDies(plan)
    ensures fate == Dies || plan.remove != Ok ==> InstallSound(env, before, contents, plan, d, fate)
    ensures InstallSound(env, before, contents, plan, Removed(d, plan.tmp), fate)
  {
    assert Removed(d, plan.tmp).entries == before.entries;
  }

  lemma InstallIsSound(env: Env, d: Disk, contents: seq<Byte>, plan: Plan)
    ensures Sane(env, d) && d.dir && plan.tmp != env.path && env.path !in d.entries ==>
      var r := Installed(env, d, contents, plan); InstallSound(env, d, contents, plan, r.disk, r.fate)
  {
    if Sane(env, d) && d.dir && plan.tmp != env.path && env.path !in d.entries
       && plan.create == Ok && plan.tmp !in d.entries {
      TempIsSound(Created(d, plan.tmp), |d.files|, contents, plan);
      var temp := TempWritten(Created(d, plan.tmp), |d.files|, contents, plan);
      if temp.fate == Ok && plan.rename == Ok {
        RenameIsSound(env, d, temp.disk, contents, plan);
      } else {
        AbandonedIsSound(env, d, temp.disk, contents, plan, Fails);
        if SomethingDies(plan) {
          AbandonedIsSound(env, d, temp.disk, contents, plan, Dies);
        }
      }
    }
  }

  /** What one start may do to the path and what it may answer. */
  ghost predicate StartSound(env: Env, before: Disk, plan: Plan, after: Disk, outcome: Outcome) {
    && Sane(env, after) && after.dirDurable == before.dirDurable
    && (outcome.Died? ==> SomethingDies(plan))
    && (AtPath(env, before).Some? ==>
          // an existing file is loaded or refused, never altered
          && after == before
          && (plan.read == Ok && env.parse(AtPath(env, before).value).Some? <==> outcome.Loaded?)
          && (outcome.Loaded? ==> !outcome.generated && env.parse(AtPath(env, before).value) == Some(outcome.key)))
    && (AtPath(env, before).None? ==>
          // a new one is complete, and returned only if it is there
          && (AtPath(env, after).Some? ==> plan.generated.Some? && AtPath(env, after) == plan.generated)
          && (outcome.Loaded? ==>
                && outcome.generated && AtPath(env, after).Some? && plan.tmp !in after.entries
                && env.parse(AtPath(env, after).value) == Some(outcome.key)
                && (env.path in after.durable <==> plan.openDir == Ok && plan.syncDir == Ok))
          && (outcome.Error? ==> AtPath(env, after).None?)
          && (outcome.Error? && plan.remove == Ok && plan.tmp !in before.entries ==> after.entries == before.entries)
          && (outcome.Loaded? <==>
                && plan.read == Ok && plan.generated.Some? && plan.mkdir == Ok && InstallGoes(plan)
                && plan.tmp !in before.entries))
  }

  lemma StartIsSound(env: Env, d: Disk, plan: Plan)
    ensures Sane(env, d) && Proper(env, plan) ==>
      var s := Start(env, d, plan); StartSound(env, d, plan, s.disk, s.outcome)
  {
    if Sane(env, d) && Proper(env, plan) && AtPath(env, d).None? && plan.generated.Some? {
      InstallIsSound(env, MadeDir(d), plan.generated.value, plan);
    }
  }

  // ---- any number of starts

  /** One start and what follows it: nothing, or a power loss. */
  datatype Boot = Boot(plan: Plan, loss: Option<Loss>)

  function AfterLoss(d: Disk, loss: Option<Loss>): Disk {
    if loss.Some? then PowerLost(d, loss.value) else d
  }

  /** A history: `disks[i]` is the disk before the i-th start, `outcomes[i]` what that start returned. */
  ghost predicate History(env: Env, boots: seq<Boot>, disks: seq<Disk>, outcomes: seq<Outcome>) {
    && |disks| == |boots| + 1 && |outcomes| == |boots|
    && Sane(env, disks[0])
    && forall i :: 0 <= i < |boots| ==> Booted(env, boots[i], disks[i], disks[i + 1], outcomes[i])
  }

  ghost predicate Booted(env: Env, boot: Boot, before: Disk, after: Disk, outcome: Outcome) {
    && Proper(env, boot.plan)
    && outcome == Start(env, before, boot.plan).outcome
    && after == AfterLoss(Start(env, before, boot.plan).disk, boot.loss)
  }

  /** Running the program again and again, whatever fails, is such a history. */
  method RunBoots(env: Env, fs: FileSystem, boots: seq<Boot>) returns (outcomes: seq<Outcome>, ghost disks: seq<Disk>)
    requires Sane(env, fs.disk) && forall i :: 0 <= i < |boots| ==> Proper(env, boots[i].plan)
    modifies fs
    ensures History(env, boots, disks, outcomes)
    ensures disks[0] == old(fs.disk) && disks[|boots|] == fs.disk
  {
    outcomes, disks := [], [fs.disk];
    for n := 0 to |boots|
      invariant |outcomes| == n && |disks| == n + 1 && disks[0] == old(fs.disk) && disks[n] == fs.disk
      invariant forall i :: 0 <= i < n ==> Booted(env, boots[i], disks[i], disks[i + 1], outcomes[i])
    {
      var outcome := LoadOrCreateHostKey(env, fs, boots[n].plan);
      fs.disk := AfterLoss(fs.disk, boots[n].loss);
      assert Booted(env, boots[n], disks[n], fs.disk, outcome);
      outcomes := outcomes + [outcome];
      disks := disks + [fs.disk];
    }
  }

  lemma BootKeepsPath(env: Env, boot: Boot, before: Disk, after: Disk, outcome: Outcome)
    requires Sane(env, before) && Booted(env, boot, before, after, outcome)
    ensures Sane(env, after)
    ensures AtPath(env, after).None? || AtPath(env, after) == AtPath(env, before)
            || (AtPath(env, before).None? && AtPath(env, after) == boot.plan.generated)
    ensures IsDurable(env, before) ==> IsDurable(env, after) && AtPath(env, after) == AtPath(env, before)
  {
    StartIsSound(env, before, boot.plan);
    if boot.loss.Some? {
      PowerLossIsClean(env, Start(env, before, boot.plan).disk, boot.loss.value);
    }
  }

  /** Over any sequence of starts, failures and power losses the path holds nothing, the file that was there at the
      beginning, or one complete generated key: never a partial one. */
  lemma {:induction false} NeverPartial(env: Env, boots: seq<Boot>, disks: seq<Disk>, outcomes: seq<Outcome>, i: nat)
    requires History(env, boots, disks, outcomes) && i <= |boots|
    ensures Sane(env, disks[i])
    ensures || AtPath(env, disks[i]).None?
            || AtPath(env, disks[i]) == AtPath(env, disks[0])
            || exists j :: 0 <= j < i && boots[j].plan.generated == AtPath(env, disks[i])
  {
    if i > 0 {
      NeverPartial(env, boots, disks, outcomes, i - 1);
      assert Booted(env, boots[i - 1], disks[i - 1], disks[i], outcomes[i - 1]);
      BootKeepsPath(env, boots[i - 1], disks[i - 1], disks[i], outcomes[i - 1]);
    }
  }

  lemma {:induction false} DurableStays(
    env: Env, boots: seq<Boot>, disks: seq<Disk>, outcomes: seq<Outcome>, i: nat, j: nat)
    requires History(env, boots, disks, outcomes) && i <= j <= |boots| && IsDurable(env, disks[i])
    ensures Sane(env, disks[j]) && IsDurable(env, disks[j]) && AtPath(env, disks[j]) == AtPath(env, disks[i])
    ensures AtPath(env, disks[i]).Some?
    decreases j - i
  {
    NeverPartial(env, boots, disks, outcomes, i);
    if i < j {
      DurableStays(env, boots, disks, outcomes, i, j - 1);
      assert Booted(env, boots[j - 1], disks[j - 1], disks[j], outcomes[j - 1]);
      BootKeepsPath(env, boots[j - 1], disks[j - 1], disks[j], outcomes[j - 1]);
    }
  }

  /** Once the key is durable every later start that can read a key there returns that one, and generates none. */
  lemma KeyIsForever(env: Env, boots: seq<Boot>, disks: seq<Disk>, outcomes: seq<Outcome>, i: nat, j: nat)
    requires History(env, boots, disks, outcomes) && i <= j < |boots| && IsDurable(env, disks[i])
    ensures AtPath(env, disks[i]).Some?
    ensures outcomes[j].Loaded? ==>
      !outcomes[j].generated && env.parse(AtPath(env, disks[i]).value) == Some(outcomes[j].key)
    ensures boots[j].plan.read == Ok && env.parse(AtPath(env, disks[i]).value).Some? ==> outcomes[j].Loaded?
  {
    DurableStays(env, boots, disks, outcomes, i, j);
    assert Booted(env, boots[j], disks[j], disks[j + 1], outcomes[j]);
    StartIsSound(env, disks[j], boots[j].plan);
  }

  // ---- is the first key kept?

  /** A start that returned a new key leaves it durable if and only if its directory flush went through and the
      directory's own entry was on stable storage before. */
  lemma CreatedKeyIsDurableIff(env: Env, d: Disk, plan: Plan)
    requires Sane(env, d) && Proper(env, plan) && AtPath(env, d).None? && Start(env, d, plan).outcome.Loaded?
    ensures var s := Start(env, d, plan);
      && Sane(env, s.disk) && AtPath(env, s.disk).Some? && s.outcome.generated
      && env.parse(AtPath(env, s.disk).value) == Some(s.outcome.key)
      && (IsDurable(env, s.disk) <==> d.dirDurable && plan.openDir == Ok && plan.syncDir == Ok)
  {
    StartIsSound(env, d, plan);
  }

  /** Every later start returns this key if it returns one, whatever power is lost, now or later. */
  ghost predicate KeptForever(env: Env, d: Disk, key: Key) {
    forall loss: Option<Loss>, boots: seq<Boot>, disks: seq<Disk>, outcomes: seq<Outcome> ::
      History(env, boots, disks, outcomes) && disks[0] == AfterLoss(d, loss) ==> AlwaysReturns(outcomes, key)
  }

  ghost predicate AlwaysReturns(outcomes: seq<Outcome>, key: Key) {
    forall j :: 0 <= j < |outcomes| && outcomes[j].Loaded? ==> outcomes[j] == Loaded(key, false)
  }

  lemma DurableKeyIsKept(env: Env, d: Disk, key: Key)
    requires Sane(env, d) && IsDurable(env, d) && env.parse(AtPath(env, d).value) == Some(key)
    ensures KeptForever(env, d, key)
  {
    forall loss: Option<Loss>, boots: seq<Boot>, disks: seq<Disk>, outcomes: seq<Outcome>
      | History(env, boots, disks, outcomes) && disks[0] == AfterLoss(d, loss)
      ensures AlwaysReturns(outcomes, key)
    {
      if loss.Some? {
        PowerLossIsClean(env, d, loss.value);
      }
      forall j | 0 <= j < |outcomes| && outcomes[j].Loaded? ensures outcomes[j] == Loaded(key, false) {
        KeyIsForever(env, boots, disks, outcomes, 0, j);
      }
    }
  }

  /** Without it: a power loss that takes the key, and a start that then generates another. */
  lemma LostKeyIsReplaced(env: Env, d: Disk, plan: Plan, key: Key)
    requires Sane(env, d) && AtPath(env, d).Some? && !IsDurable(env, d)
    requires Proper(env, plan) && plan.generated.Some? && plan.tmp !in d.entries
    ensures !KeptForever(env, d, key)
  {
    var loss := Loss({plan.tmp}, false, _ => []);
    var lost := PowerLost(d, loss);
    PowerLossIsClean(env, d, loss);
    var again := plan.(read := Ok, mkdir := Ok, create := Ok, chmod := Ok, write := Ok, sync := Ok, close := Ok,
                       rename := Ok, openDir := Ok, syncDir := Ok);
    assert NothingFails(again) && plan.tmp !in lost.entries && AtPath(env, lost).None?;
    StartIsSound(env, lost, again);
    var s := Start(env, lost, again);
    assert s.outcome.Loaded? && s.outcome.generated;
    var boots, disks, outcomes := [Boot(again, None)], [lost, s.disk], [s.outcome];
    assert Booted(env, boots[0], disks[0], disks[1], outcomes[0]);
    assert History(env, boots, disks, outcomes) && disks[0] == AfterLoss(d, Some(loss));
    assert !AlwaysReturns(outcomes, key);
  }

  /** A new key that a start returned is the one every later start returns, through any power losses, if and only if its
      directory flush went through and the directory was there, on stable storage, before that start.  A first start
      that makes the directory itself therefore does not secure its key, though every call of it succeeds. */
  lemma FirstKeyIsKeptIff(env: Env, d: Disk, plan: Plan)
    requires Sane(env, d) && Proper(env, plan) && AtPath(env, d).None? && Start(env, d, plan).outcome.Loaded?
    ensures var s := Start(env, d, plan);
      KeptForever(env, s.disk, s.outcome.key) <==> d.dirDurable && plan.openDir == Ok && plan.syncDir == Ok
  {
    var s := Start(env, d, plan);
    CreatedKeyIsDurableIff(env, d, plan);
    if IsDurable(env, s.disk) {
      DurableKeyIsKept(env, s.disk, s.outcome.key);
    } else {
      StartIsSound(env, d, plan);
      LostKeyIsReplaced(env, s.disk, plan, s.outcome.key);
    }
  }

  /** In a history: the key of a start that met the condition is the one every later start with a working read
      returns. */
  lemma FirstKeyIsKept(env: Env, boots: seq<Boot>, disks: seq<Disk>, outcomes: seq<Outcome>, i: nat, j: nat)
    requires History(env, boots, disks, outcomes) && i < j < |boots|
    requires outcomes[i].Loaded? && outcomes[i].generated
    requires disks[i].dirDurable && boots[i].plan.openDir == Ok && boots[i].plan.syncDir == Ok
    ensures outcomes[j].Loaded? ==> outcomes[j] == Loaded(outcomes[i].key, false)
    ensures boots[j].plan.read == Ok ==> outcomes[j].Loaded?
  {
    NeverPartial(env, boots, disks, outcomes, i);
    assert Booted(env, boots[i], disks[i], disks[i + 1], outcomes[i]);
    StartIsSound(env, disks[i], boots[i].plan);
    CreatedKeyIsDurableIff(env, disks[i], boots[i].plan);
    if boots[i].loss.Some? {
      PowerLossIsClean(env, Start(env, disks[i], boots[i].plan).disk, boots[i].loss.value);
    }
    KeyIsForever(env, boots, disks, outcomes, i + 1, j);
  }

  /** No directory yet, as on a new volume. */
  const BARE: Disk := Disk([], map[], map[], false, false)

  /** The run: from no directory two starts, every call of which succeeds, with a power loss in between, return the two
      keys they generate, one each. */
  lemma DirectoryTakesKeyAlong(env: Env, first: Plan, second: Plan)
    requires Proper(env, first) && Proper(env, second) && NothingFails(first) && NothingFails(second)
    ensures var s := Start(env, BARE, first);
      var lost := PowerLost(s.disk, Loss({}, false, _ => []));
      && s.outcome == Loaded(env.parse(first.generated.value).value, true)
      && Start(env, lost, second).outcome == Loaded(env.parse(second.generated.value).value, true)
  {
    var s := Start(env, BARE, first);
    var lost := PowerLost(s.disk, Loss({}, false, _ => []));
    StartIsSound(env, BARE, first);
    CreatedKeyIsDurableIff(env, BARE, first);
    PowerLossIsClean(env, s.disk, Loss({}, false, _ => []));
    assert lost.entries == map[];
    StartIsSound(env, lost, second);
    CreatedKeyIsDurableIff(env, lost, second);
  }
}
