/**
  What a suspend and a wake change: the suspend files of a machine directory,
  the hypervisor process, and the guest behind it.

  Directory changes are visible at once and durable only after a directory
  sync. `survivors` holds every directory a power loss could leave: each
  unsynced change may or may not have reached the disk, in any combination.
 */
module SuspendWorld {
  import opened Base

  /** suspend.json. A saved journal names the save it committed, the image size
      it recorded and, once taken, the fingerprint of the disk. */
  datatype Journal =
    | NoJournal
    | Saving
    | Saved(save: nat, size: nat, mark: Option<nat>)
    | Bad

  /** The directory entries of a suspend. An entry names a file by the save
      that created it, so two saves never share a file. */
  datatype Dir = Dir(journal: Journal, image: Option<nat>, tmp: Option<nat>)

  /** A memory image: the disk version its guest had seen when it was frozen,
      its size, whether the hypervisor finished it, whether it was synced. */
  datatype Content = Content(version: nat, size: nat, whole: bool, synced: bool)

  datatype Transfer = Quiet | Sending(save: nat) | Sent(save: nat) | Receiving(save: nat)

  /** query-status. Both Paused and Loaded read "paused". */
  datatype Mode = Running | Paused | PostMigrate | InMigrate | Loaded(save: nat)

  /** `mem` is the disk version the guest in memory has seen. */
  datatype Qemu = Off | On(mode: Mode, mem: nat, transfer: Transfer)

  /** One `cont` sent to a hypervisor: the journal it was sent under, whether a
      power loss could still have brought back a saved journal, the image the
      guest was loaded from, and whether the guest matched its disk. */
  datatype Continued = Continued(journal: Journal, exposed: bool, image: Option<nat>, coherent: bool)

  datatype World = World(
    dir: Dir,
    survivors: set<Dir>,
    files: map<nat, Content>,
    nextSave: nat,
    qemu: Qemu,
    pid: bool,        // qemu.pid exists; a live hypervisor is the one it names
    incoming: bool,   // the recorded argv carries -incoming
    aside: bool,      // suspend.json.bad exists
    disk: nat,        // how often a guest has written the disk
    memory: nat,      // the guest memory an image must at least hold
    log: seq<Continued>)

  datatype DirOp =
    | PutJournal(journal: Journal)
    | DropJournal
    | PutTmp(save: nat)
    | DropTmp
    | DropImage
    | RenameTmp(save: nat)

  function Apply(op: DirOp, d: Dir): Dir {
    match op
    case PutJournal(j) => d.(journal := j)
    case DropJournal => d.(journal := NoJournal)
    case PutTmp(s) => d.(tmp := Some(s))
    case DropTmp => d.(tmp := None)
    case DropImage => d.(image := None)
    case RenameTmp(s) => d.(image := Some(s), tmp := None)
  }

  /** A directory change: seen at once, and kept or lost by a power loss
      independently of every other unsynced change. */
  function Mutate(w: World, op: DirOp): World {
    w.(dir := Apply(op, w.dir),
       survivors := w.survivors + set d | d in w.survivors :: Apply(op, d))
  }

  function MutateIf(w: World, op: DirOp, done: bool): World {
    if done then Mutate(w, op) else w
  }

  function SyncDir(w: World): World {
    w.(survivors := {w.dir})
  }

  function SyncIf(w: World, done: bool): World {
    if done then SyncDir(w) else w
  }

  predicate Alive(w: World) { w.pid && w.qemu.On? }

  /** What jm can check of a saved pair: the image is there with the size the
      journal committed. */
  predicate ValidImage(w: World) {
    && w.dir.journal.Saved? && w.dir.journal.size > 0
    && w.dir.image.Some? && w.dir.image.value in w.files
    && w.files[w.dir.image.value].size == w.dir.journal.size
  }

  predicate NoSaved(ds: set<Dir>) {
    forall d :: d in ds ==> !d.journal.Saved?
  }

  /** A pair no fingerprint protects: if it came back after the guest had
      written its disk, nothing would stop a wake from loading it. */
  predicate Naked(d: Dir) {
    d.journal.Saved? && d.journal.mark.None? && d.image.Some?
  }

  predicate NoNaked(ds: set<Dir>) {
    forall d :: d in ds ==> !Naked(d)
  }

  /** `cont`. It frees a frozen or freshly loaded guest. A save that is still
      being sent goes on, and freezes the guest again when it completes. */
  function Cont(w: World): World
    requires w.qemu.On?
  {
    var from := if w.qemu.mode.Loaded? then Some(w.qemu.mode.save) else None;
    var sent := Continued(w.dir.journal, !NoSaved(w.survivors), from, w.qemu.mem == w.disk);
    w.(log := w.log + [sent],
       qemu := if w.qemu.mode.InMigrate? then w.qemu
               else On(Running, w.qemu.mem, if w.qemu.transfer.Sending? then w.qemu.transfer else Quiet))
  }

  function ContIf(w: World, done: bool): World {
    if done && w.qemu.On? then Cont(w) else w
  }

  /** `stop`. */
  function StopIf(w: World, done: bool): World {
    if done && w.qemu.On? && w.qemu.mode.Running?
    then w.(qemu := w.qemu.(mode := Paused))
    else w
  }

  function TransferIf(w: World, t: Transfer, done: bool): World {
    if done && w.qemu.On? then w.(qemu := w.qemu.(transfer := t)) else w
  }

  /** migrate_cancel, waited out: nothing is being sent any more. */
  function CancelTransfer(w: World): World {
    if w.qemu.On? && w.qemu.transfer.Sending? then w.(qemu := w.qemu.(transfer := Quiet)) else w
  }

  /** The images that a guest was loaded from and then continued. */
  function Taken(log: seq<Continued>): set<nat> {
    set e | e in log && e.image.Some? :: e.image.value
  }

  /** What happens without jm. */
  datatype Event =
    | GuestWrites
    | QemuDies
    | QemuNamesItself
    | SaveGrows(size: nat)
    | SaveDone(size: nat)
    | SaveFails
    | LoadDone
    | LoadFails

  function Happens(w: World, e: Event): World {
    if w.qemu.Off? then w else
    var q := w.qemu;
    match e
    case GuestWrites =>
      if q.mode.Running? then w.(disk := w.disk + 1, qemu := q.(mem := q.mem + 1)) else w
    case QemuDies => w.(qemu := Off)
    case QemuNamesItself => w.(pid := true)
    case SaveGrows(size) =>
      if q.transfer.Sending? && q.transfer.save in w.files
      then w.(files := w.files[q.transfer.save := w.files[q.transfer.save].(size := size)])
      else w
    case SaveDone(size) =>
      if q.transfer.Sending? && (q.mode.Paused? || q.mode.Running?)
      then w.(files := w.files[q.transfer.save := Content(q.mem, size, true, false)],
              qemu := On(PostMigrate, q.mem, Sent(q.transfer.save)))
      else w
    case SaveFails =>
      if q.transfer.Sending? then w.(qemu := q.(transfer := Quiet)) else w
    case LoadDone =>
      if q.mode.InMigrate? && q.transfer.Receiving? && q.transfer.save in w.files && w.files[q.transfer.save].whole
      then w.(qemu := On(Loaded(q.transfer.save), w.files[q.transfer.save].version, Quiet))
      else w
    case LoadFails =>
      if q.transfer.Receiving? then w.(qemu := q.(transfer := Quiet)) else w
  }

  /** The journal file is damaged, or replaced by one of another version. */
  function Damage(d: Dir): Dir {
    if d.journal.NoJournal? then d else d.(journal := Bad)
  }

  function Corrupt(w: World): World {
    if w.dir.journal.NoJournal? then w
    else w.(dir := Damage(w.dir), survivors := set d | d in w.survivors :: Damage(d))
  }

  /** A power loss leaves any survivor, ends the hypervisor and tears every
      image that was not synced. */
  function LosePower(w: World, d: Dir, torn: nat, pid: bool, incoming: bool): World {
    if d in w.survivors then
      w.(dir := d, survivors := {d}, qemu := Off, pid := pid, incoming := incoming,
         files := map s | s in w.files ::
           if w.files[s].synced then w.files[s] else Content(w.files[s].version, torn, false, false))
    else w
  }
}
