/** The registry of live spaces. Every caller is a task; each stretch of its code between two awaits is one
    event, and the tasks interleave in any order. */
module Registries {
  import opened Rules
  import opened KeyLocks

  const MAX_TABS := 32

  datatype Job = Get | Attach(tab: nat) | Release(space: nat) | Shut(space: nat)

  /** What a caller awaits once it has its key's lock. */
  datatype Stage = Fresh | Loading | Discarding | Saving | Closing

  datatype Work = Work(job: Job, stage: Stage)

  datatype Registry = Registry(
    live: map<string, nat>, keys: Keyed<Work>, closed: bool,
    /** Every space published so far, those whose session has begun to close, and the attached tabs. */
    keyOf: map<nat, string>, ended: set<nat>, tabs: map<nat, set<nat>>,
    /** Shutdown has listed the live spaces and started a task to close each. */
    gathered: bool)

  datatype Save = Stored | NotStored | Raised

  datatype Event =
    | Call(c: Task, job: Job, key: string)
    | Start(c: Task)
    | Acquire(c: Task, idle: bool)
    | GiveUp(c: Task)
    | Created(c: Task, made: Option<nat>)
    | Discarded(c: Task)
    | Saved(c: Task, save: Save)
    | Closed(c: Task, clean: bool)
    | Detach(space: nat, tab: nat)
    | Aclose
    | Gather

  const FIRST := Registry(map[], Keyed(map[], map[], map[], 0, map[]), false, map[], {}, map[], false)

  predicate Is(w: Registry, c: Task, stage: Stage) {
    IsInside(w.keys, c) && w.keys.callers[c].work.stage == stage
  }

  function JobOf(w: Registry, c: Task): Job
    requires c in w.keys.callers
  {
    w.keys.callers[c].work.job
  }

  function KeyOf(w: Registry, c: Task): string
    requires c in w.keys.callers
  {
    w.keys.callers[c].key
  }

  function At(w: Registry, c: Task, stage: Stage): Registry
    requires IsInside(w.keys, c)
  {
    w.(keys := Working(w.keys, c, Work(JobOf(w, c), stage)))
  }

  function Gone(w: Registry, c: Task): Registry
    requires HasEntered(w.keys, c)
  {
    w.(keys := Left(w.keys, c))
  }

  /** The space is at hand: attach the tab unless the space has too many. */
  function Attached(w: Registry, job: Job, s: nat): Registry
    requires s in w.tabs
  {
    if job.Attach? && |w.tabs[s]| < MAX_TABS then w.(tabs := w.tabs[s := w.tabs[s] + {job.tab}]) else w
  }

  function Published(w: Registry, key: string, s: nat): Registry {
    w.(live := w.live[key := s], keyOf := w.keyOf[s := key], tabs := w.tabs[s := {}])
  }

  function Dropped(w: Registry, key: string, s: nat): Registry {
    if key in w.live && w.live[key] == s then w.(live := w.live - {key}) else w
  }

  predicate NoTabs(w: Registry, s: nat) {
    s !in w.tabs || w.tabs[s] == {}
  }

  /** The first stretch under the lock. */
  function Ran(w: Registry, c: Task, idle: bool): Registry
    requires IsInside(w.keys, c)
  {
    var key := KeyOf(w, c);
    match JobOf(w, c)
    case Release(s) =>
      if key !in w.live || w.live[key] != s || !NoTabs(w, s) || !idle then Gone(w, c) else At(w, c, Saving)
    case Shut(_) => At(w, c, Saving)
    case _ =>
      if key in w.live then
        if w.live[key] in w.tabs then Gone(Attached(w, JobOf(w, c), w.live[key]), c) else Gone(w, c)
      else if w.closed then Gone(w, c)
      else At(w, c, Loading)
  }

  /** A space is made, or making it failed. It is published only while the registry is open. */
  function CreateOver(w: Registry, c: Task, made: Option<nat>): Registry
    requires Is(w, c, Loading)
  {
    if made.None? || made.value in w.keyOf then Gone(w, c)
    else if w.closed then At(w, c, Discarding)
    else Gone(Attached(Published(w, KeyOf(w, c), made.value), JobOf(w, c), made.value), c)
  }

  /** A save is over: a release goes on only if everything is stored, a shutdown unless the save raised. */
  function SaveOver(w: Registry, c: Task, save: Save): Registry
    requires Is(w, c, Saving)
  {
    match JobOf(w, c)
    case Release(s) => if save == Stored then At(w.(ended := w.ended + {s}), c, Closing) else Gone(w, c)
    case Shut(s) =>
      if save == Raised then Gone(Dropped(w, KeyOf(w, c), s), c) else At(w.(ended := w.ended + {s}), c, Closing)
    case _ => Gone(w, c)
  }

  /** The session and hub are closed; a close that raised may leave tabs behind. */
  function CloseOver(w: Registry, c: Task, clean: bool): Registry
    requires Is(w, c, Closing)
  {
    var key := KeyOf(w, c);
    match JobOf(w, c)
    case Release(s) => Gone(w.(live := w.live - {key}, tabs := if clean then w.tabs[s := {}] else w.tabs), c)
    case Shut(s) => Gone(Dropped(w, key, s).(tabs := if clean then w.tabs[s := {}] else w.tabs), c)
    case _ => Gone(w, c)
  }

  /** A task to close each live space. */
  function Shutters(w: Registry): map<Task, Phase<Work>> {
    map k | k in w.live :: Shutter(k) := Queued(k, Work(Shut(w.live[k]), Fresh))
  }

  function Gathered(w: Registry): Registry {
    w.(gathered := true, keys := w.keys.(callers := w.keys.callers + Shutters(w)))
  }

  function Next(w: Registry, e: Event): Registry {
    match e
    case Call(c, job, key) =>
      if c.Shutter? || c in w.keys.callers || job.Shut? then w
      else if job.Release? && (job.space !in w.keyOf || w.keyOf[job.space] != key) then w
      else w.(keys := Entered(w.keys, c, key, Work(job, Fresh)))
    case Start(c) =>
      if c in w.keys.callers && w.keys.callers[c].Queued?
      then w.(keys := Entered(w.keys, c, KeyOf(w, c), w.keys.callers[c].work))
      else w
    case Acquire(c, idle) => if CanAcquire(w.keys, c) then Ran(w.(keys := Acquired(w.keys, c)), c, idle) else w
    case GiveUp(c) => if HasEntered(w.keys, c) && !IsInside(w.keys, c) && !c.Shutter? then Gone(w, c) else w
    case Created(c, made) => if Is(w, c, Loading) then CreateOver(w, c, made) else w
    case Discarded(c) => if Is(w, c, Discarding) then Gone(w, c) else w
    case Saved(c, save) => if Is(w, c, Saving) then SaveOver(w, c, save) else w
    case Closed(c, clean) => if Is(w, c, Closing) then CloseOver(w, c, clean) else w
    case Detach(s, tab) => if s in w.tabs then w.(tabs := w.tabs[s := w.tabs[s] - {tab}]) else w
    case Aclose => w.(closed := true)
    case Gather => if w.closed && !w.gathered then Gathered(w) else w
  }
}
