/**
 * The cache of the static file server under concurrent requests and a changing disk. Requests map a
 * key to a path and a path to a cache entry; an entry older than the recheck interval is compared
 * with the file's modification time before it is served again. Every access to shared state or to the
 * disk is one step, and steps of different requests interleave in any order.
 *
 * Time is counted in instants; `past[t]` is the disk at instant `t` and the last element is the present.
 */
module StaticFileCache {
  import opened Common

  type Path = nat      // names are only ever compared
  type Key = nat

  datatype Version = Version(mtime: int, content: Bytes)
  type Disk = map<Path, Version>

  /** `delay` bounds the time from looking at a file to noting the time of the look. */
  datatype Config = Config(interval: nat, delay: nat, maxFileSize: nat)

  /**
   * A cache entry. `statAt`, `readAt` and `goodAt` are for the proof: when the modification time was taken, when
   * the content was read, and the last instant at which the path is known to have held the content.
   */
  datatype Entry = Entry(
    path: Path, mtime: int, content: Bytes, lastChecked: nat, statAt: nat, readAt: nat, goodAt: nat)

  /** Where a request is. */
  datatype At =
    | Start(key: Key)
    | HasPath(key: Key, path: Path)
    | Stale(key: Key, path: Path, id: nat)
    | Unchanged(key: Key, id: nat, statAt: nat)
    | NeedsLoad(key: Key)
    | Loading(key: Key, path: Path)
    | Statted(key: Key, path: Path, mtime: int, statAt: nat)
    | ReadIn(key: Key, path: Path, mtime: int, statAt: nat, content: Bytes, readAt: nat)
    | Served(key: Key, path: Path, content: Bytes, goodAt: nat, servedAt: nat)
    | NotServed(key: Key)

  datatype Server = Server(
    past: seq<Disk>,
    keyToPath: map<Key, Path>,
    cache: map<Path, nat>,
    entries: map<nat, Entry>,
    requests: map<nat, At>,
    nextId: nat)

  datatype Step =
    | Advance(disk: Disk)              // time passes, files may change
    | Request(c: nat, key: Key)
    | Go(c: nat)
    | Resolve(c: nat, path: Path, index: bool)  // the key names this existing file; `index`: that of a directory
    | TooLarge(c: nat, path: Path)     // a .html file too large to cache: its path is noted
    | Miss(c: nat)                     // no file, or one too large to cache
    | Evict(path: Path)                // the cache makes room

  function Now(s: Server): nat
    requires s.past != []
  {
    |s.past| - 1
  }

  function Present(s: Server): Disk
    requires s.past != []
  {
    s.past[|s.past| - 1]
  }

  /** A modification time is not used again once the file has changed or gone. */
  ghost predicate Honest(past: seq<Disk>, disk: Disk) {
    forall i, p :: 0 <= i < |past| && p in past[i] && p in disk && past[i][p].mtime == disk[p].mtime ==>
      forall k :: i <= k < |past| ==> p in past[k] && past[k][p] == disk[p]
  }

  ghost predicate Possible(cfg: Config, s: Server, step: Step)
    requires s.past != []
  {
    match step
    case Advance(disk) => Honest(s.past, disk)
    case Request(c, _) => c !in s.requests
    case Go(c) =>
      c in s.requests &&
      (match s.requests[c]
       case HasPath(_, path) => path in s.cache ==> s.cache[path] in s.entries
       case Stale(_, _, id) => id in s.entries
       case Unchanged(_, id, statAt) => id in s.entries && Now(s) <= statAt + cfg.delay
       case ReadIn(_, _, _, _, _, readAt) => Now(s) <= readAt + cfg.delay
       case NeedsLoad(_) => false
       case Served(_, _, _, _, _) => false
       case NotServed(_) => false
       case _ => true)
    case Resolve(c, path, index) =>
      && c in s.requests && s.requests[c].NeedsLoad? && path in Present(s)
      && (!index ==> |Present(s)[path].content| <= cfg.maxFileSize)
    case TooLarge(c, path) => c in s.requests && s.requests[c].NeedsLoad?
    case Miss(c) => c in s.requests && s.requests[c].NeedsLoad?
    case Evict(_) => true
  }

  function Move(s: Server, c: nat, at: At): Server {
    s.(requests := s.requests[c := at])
  }

  function Serve(s: Server, c: nat, key: Key, e: Entry): Server
    requires s.past != []
  {
    Move(s, c, Served(key, e.path, e.content, e.goodAt, Now(s)))
  }

  function Max(a: nat, b: nat): nat {
    if a >= b then a else b
  }

  /** Serve the entry while it is fresh, otherwise have it rechecked. */
  function LookedUp(cfg: Config, s: Server, c: nat, key: Key, path: Path): Server
    requires s.past != [] && (path in s.cache ==> s.cache[path] in s.entries)
  {
    if path !in s.cache then Move(s, c, NeedsLoad(key))
    else
      var e := s.entries[s.cache[path]];
      if Now(s) - e.lastChecked < cfg.interval then Serve(s, c, key, e)
      else Move(s, c, Stale(key, path, s.cache[path]))
  }

  /** Compare a stale entry with the file. */
  function Compared(cfg: Config, s: Server, c: nat, key: Key, path: Path, id: nat): Server
    requires s.past != [] && id in s.entries
  {
    var disk := Present(s);
    if path !in disk then Move(s, c, NeedsLoad(key))
    else if disk[path].mtime == s.entries[id].mtime then Move(s, c, Unchanged(key, id, Now(s)))
    else if |disk[path].content| > cfg.maxFileSize then
      Move(s.(cache := s.cache - {path}, keyToPath := s.keyToPath - {key}), c, NeedsLoad(key))
    else Move(s, c, NeedsLoad(key))
  }

  /** Note the time of a successful recheck. */
  function Stamped(s: Server, c: nat, key: Key, id: nat, statAt: nat): Server
    requires s.past != [] && id in s.entries
  {
    var e := Restamped(s, id, statAt);
    Serve(s.(entries := s.entries[id := e]), c, key, e)
  }

  /** Put what was read into the cache. */
  function Inserted(
      s: Server, c: nat, key: Key, path: Path, mtime: int, statAt: nat, content: Bytes, readAt: nat): Server
    requires s.past != []
  {
    var e := Entry(path, mtime, content, Now(s), statAt, readAt, readAt);
    Serve(s.(entries := s.entries[s.nextId := e], cache := s.cache[path := s.nextId], nextId := s.nextId + 1),
          c, key, e)
  }

  ghost function GoOn(cfg: Config, s: Server, c: nat): Server
    requires s.past != [] && Possible(cfg, s, Go(c))
  {
    var disk := Present(s);
    match s.requests[c]
    case Start(key) => Move(s, c, if key in s.keyToPath then HasPath(key, s.keyToPath[key]) else NeedsLoad(key))
    case HasPath(key, path) => LookedUp(cfg, s, c, key, path)
    case Stale(key, path, id) => Compared(cfg, s, c, key, path, id)
    case Unchanged(key, id, statAt) => Stamped(s, c, key, id, statAt)
    case Loading(key, path) =>
      Move(s, c, if path in disk then Statted(key, path, disk[path].mtime, Now(s)) else NotServed(key))
    case Statted(key, path, mtime, statAt) =>
      Move(s, c,
           if path in disk then ReadIn(key, path, mtime, statAt, disk[path].content, Now(s)) else NotServed(key))
    case ReadIn(key, path, mtime, statAt, content, readAt) =>
      Inserted(s, c, key, path, mtime, statAt, content, readAt)
    case _ => s
  }

  /** Note which file the key of a request names. */
  function Noted(s: Server, c: nat, path: Path, at: At): Server
    requires c in s.requests
  {
    Move(s.(keyToPath := s.keyToPath[s.requests[c].key := path]), c, at)
  }

  ghost function After(cfg: Config, s: Server, step: Step): (s': Server)
    requires s.past != [] && Possible(cfg, s, step)
    ensures s'.past != []
  {
    match step
    case Advance(disk) => s.(past := s.past + [disk])
    case Request(c, key) => Move(s, c, Start(key))
    case Go(c) => GoOn(cfg, s, c)
    case Resolve(c, path, _) => Noted(s, c, path, Loading(s.requests[c].key, path))
    case TooLarge(c, path) => Noted(s, c, path, NotServed(s.requests[c].key))
    case Miss(c) => Move(s, c, NotServed(s.requests[c].key))
    case Evict(path) => s.(cache := s.cache - {path})
  }

  // ---------------------------------------------------------------------
  // Invariant
  // ---------------------------------------------------------------------

  predicate Held(past: seq<Disk>, t: nat, path: Path, content: Bytes) {
    t < |past| && path in past[t] && past[t][path].content == content
  }

  predicate HadMtime(past: seq<Disk>, t: nat, path: Path, mtime: int) {
    t < |past| && path in past[t] && past[t][path].mtime == mtime
  }

  predicate EntrySound(cfg: Config, past: seq<Disk>, e: Entry) {
    && HadMtime(past, e.statAt, e.path, e.mtime)
    && Held(past, e.readAt, e.path, e.content)
    && Held(past, e.goodAt, e.path, e.content)
    && e.statAt <= e.readAt <= e.goodAt <= e.lastChecked <= e.goodAt + cfg.delay
    && e.lastChecked < |past|
  }

  /** What was served was on the disk at an instant this recent. */
  predicate FreshEnough(past: seq<Disk>, path: Path, content: Bytes, goodAt: nat, servedAt: nat, age: nat) {
    goodAt <= servedAt < |past| && Held(past, goodAt, path, content) && servedAt <= goodAt + age
  }

  predicate RequestSound(cfg: Config, s: Server, at: At) {
    match at
    case Stale(_, path, id) => id in s.entries && s.entries[id].path == path
    case Unchanged(_, id, statAt) =>
      id in s.entries && s.entries[id].readAt <= statAt &&
      HadMtime(s.past, statAt, s.entries[id].path, s.entries[id].mtime)
    case Statted(_, path, mtime, statAt) => HadMtime(s.past, statAt, path, mtime)
    case ReadIn(_, path, mtime, statAt, content, readAt) =>
      HadMtime(s.past, statAt, path, mtime) && statAt <= readAt && Held(s.past, readAt, path, content)
    case Served(_, path, content, goodAt, servedAt) =>
      FreshEnough(s.past, path, content, goodAt, servedAt, Max(cfg.interval, 1) - 1 + cfg.delay)
    case _ => true
  }

  ghost predicate AlwaysHonest(past: seq<Disk>) {
    forall j :: 0 <= j < |past| ==> Honest(past[..j], past[j])
  }

  ghost predicate Sound(cfg: Config, s: Server) {
    && s.past != [] && AlwaysHonest(s.past)
    && (forall id :: id in s.entries ==> id < s.nextId && EntrySound(cfg, s.past, s.entries[id]))
    && (forall p :: p in s.cache ==> s.cache[p] in s.entries && s.entries[s.cache[p]].path == p)
    && (forall c :: c in s.requests ==> RequestSound(cfg, s, s.requests[c]))
  }

  /** An unchanged modification time means unchanged content in between. */
  lemma UnchangedMeansSame(past: seq<Disk>, path: Path, mtime: int, i: nat, k: nat, j: nat)
    requires AlwaysHonest(past) && i <= k <= j
    requires HadMtime(past, i, path, mtime) && HadMtime(past, j, path, mtime)
    ensures path in past[k] && past[k][path] == past[j][path]
  {
    assert Honest(past[..j], past[j]);
    if i < j {
      assert past[..j][i] == past[i];
      if k < j { assert past[..j][k] == past[k]; }
    }
  }

  lemma HonestExtends(past: seq<Disk>, disk: Disk)
    requires AlwaysHonest(past) && Honest(past, disk)
    ensures AlwaysHonest(past + [disk])
  {
    var all := past + [disk];
    forall j | 0 <= j < |all|
      ensures Honest(all[..j], all[j])
    {
      assert all[..j] == past[..j];
      if j < |past| { assert Honest(past[..j], past[j]); } else { assert past[..j] == past; }
      hide Honest;
    }
  }

  lemma EntryOutlives(cfg: Config, past: seq<Disk>, disk: Disk, e: Entry)
    requires EntrySound(cfg, past, e)
    ensures EntrySound(cfg, past + [disk], e)
  {
  }

  lemma RequestOutlives(cfg: Config, s: Server, disk: Disk, at: At)
    requires RequestSound(cfg, s, at)
    ensures RequestSound(cfg, s.(past := s.past + [disk]), at)
  {
  }

  lemma AdvanceKeeps(cfg: Config, s: Server, disk: Disk)
    requires Sound(cfg, s) && Honest(s.past, disk)
    ensures Sound(cfg, s.(past := s.past + [disk]))
  {
    HonestExtends(s.past, disk);
    hide Honest, AlwaysHonest, EntrySound, RequestSound;
    forall id | id in s.entries
      ensures EntrySound(cfg, s.past + [disk], s.entries[id])
    {
      EntryOutlives(cfg, s.past, disk, s.entries[id]);
    }
    forall c | c in s.requests
      ensures RequestSound(cfg, s.(past := s.past + [disk]), s.requests[c])
    {
      RequestOutlives(cfg, s, disk, s.requests[c]);
    }
  }

  /** An entry read within the interval is served: how old it can be. */
  lemma HitIsFresh(cfg: Config, past: seq<Disk>, e: Entry)
    requires past != [] && EntrySound(cfg, past, e) && |past| - 1 - e.lastChecked < cfg.interval
    ensures FreshEnough(past, e.path, e.content, e.goodAt, |past| - 1, Max(cfg.interval, 1) - 1 + cfg.delay)
  {
  }

  /** Noting the time of a successful recheck keeps the entry right, and it is fresh. */
  lemma RecheckKeepsEntry(cfg: Config, past: seq<Disk>, e: Entry, statAt: nat)
    requires past != [] && AlwaysHonest(past) && EntrySound(cfg, past, e)
    requires HadMtime(past, statAt, e.path, e.mtime) && e.readAt <= statAt && |past| - 1 <= statAt + cfg.delay
    ensures var e' := e.(lastChecked := |past| - 1, goodAt := Max(e.goodAt, statAt));
            && EntrySound(cfg, past, e')
            && FreshEnough(past, e.path, e.content, e'.goodAt, |past| - 1, cfg.delay)
  {
    UnchangedMeansSame(past, e.path, e.mtime, e.statAt, e.readAt, statAt);
  }

  /** Requests look at the path, the modification time and the reading time of an entry, and these stay. */
  predicate EntriesStay(s: Server, s': Server) {
    forall id :: id in s.entries ==>
      && id in s'.entries && s'.entries[id].path == s.entries[id].path
      && s'.entries[id].mtime == s.entries[id].mtime && s'.entries[id].readAt == s.entries[id].readAt
  }

  lemma RequestKept(cfg: Config, s: Server, s': Server, at: At)
    requires RequestSound(cfg, s, at) && s'.past == s.past && EntriesStay(s, s')
    ensures RequestSound(cfg, s', at)
  {
  }

  /** The entries may change as long as each stays sound and means the same to the requests. */
  lemma EntriesMayChange(cfg: Config, s: Server, s': Server)
    requires Sound(cfg, s) && EntriesStay(s, s') && s'.past == s.past && s'.requests == s.requests
    requires forall id :: id in s'.entries ==> id < s'.nextId && EntrySound(cfg, s'.past, s'.entries[id])
    requires forall p :: p in s'.cache ==> s'.cache[p] in s'.entries && s'.entries[s'.cache[p]].path == p
    ensures Sound(cfg, s')
  {
    hide AlwaysHonest, EntrySound, RequestSound, EntriesStay;
    forall d | d in s'.requests
      ensures RequestSound(cfg, s', s'.requests[d])
    {
      RequestKept(cfg, s, s', s.requests[d]);
    }
  }

  lemma EntryMayChange(cfg: Config, s: Server, id: nat, e: Entry)
    requires Sound(cfg, s) && id in s.entries && EntrySound(cfg, s.past, e)
    requires e.path == s.entries[id].path && e.mtime == s.entries[id].mtime && e.readAt == s.entries[id].readAt
    ensures Sound(cfg, s.(entries := s.entries[id := e]))
  {
    hide AlwaysHonest, EntrySound, RequestSound;
    EntriesMayChange(cfg, s, s.(entries := s.entries[id := e]));
  }

  /** One request moves to `at`; the others keep their place. */
  lemma MoveKeeps(cfg: Config, s: Server, c: nat, at: At)
    requires Sound(cfg, s) && RequestSound(cfg, s, at)
    ensures Sound(cfg, Move(s, c, at))
  {
    hide AlwaysHonest, EntrySound, RequestSound;
    var s' := Move(s, c, at);
    forall d | d in s'.requests
      ensures RequestSound(cfg, s', s'.requests[d])
    {
      RequestKept(cfg, s, s', s'.requests[d]);
    }
  }

  /** Keys and cached paths may be dropped, keys may be added. */
  lemma MapsKeep(cfg: Config, s: Server, keyToPath: map<Key, Path>, dropped: set<Path>)
    requires Sound(cfg, s)
    ensures Sound(cfg, s.(keyToPath := keyToPath, cache := s.cache - dropped))
  {
    hide AlwaysHonest, EntrySound, RequestSound;
    var s' := s.(keyToPath := keyToPath, cache := s.cache - dropped);
    forall d | d in s'.requests
      ensures RequestSound(cfg, s', s'.requests[d])
    {
      RequestKept(cfg, s, s', s'.requests[d]);
    }
  }

  lemma ServeKeeps(cfg: Config, s: Server, c: nat, key: Key, e: Entry)
    requires Sound(cfg, s)
    requires FreshEnough(s.past, e.path, e.content, e.goodAt, Now(s), Max(cfg.interval, 1) - 1 + cfg.delay)
    ensures Sound(cfg, Serve(s, c, key, e))
  {
    hide FreshEnough;
    MoveKeeps(cfg, s, c, Served(key, e.path, e.content, e.goodAt, Now(s)));
  }

  function Restamped(s: Server, id: nat, statAt: nat): Entry
    requires s.past != [] && id in s.entries
  {
    s.entries[id].(lastChecked := Now(s), goodAt := Max(s.entries[id].goodAt, statAt))
  }

  lemma RestampKeeps(cfg: Config, s: Server, key: Key, id: nat, statAt: nat)
    requires Sound(cfg, s) && RequestSound(cfg, s, Unchanged(key, id, statAt)) && Now(s) <= statAt + cfg.delay
    ensures Sound(cfg, s.(entries := s.entries[id := Restamped(s, id, statAt)]))
  {
    RecheckKeepsEntry(cfg, s.past, s.entries[id], statAt);
    hide RequestSound, HadMtime;
    EntryMayChange(cfg, s, id, Restamped(s, id, statAt));
  }

  lemma RestampIsFresh(cfg: Config, s: Server, key: Key, id: nat, statAt: nat)
    requires Sound(cfg, s) && RequestSound(cfg, s, Unchanged(key, id, statAt)) && Now(s) <= statAt + cfg.delay
    ensures var e := Restamped(s, id, statAt);
            FreshEnough(s.past, e.path, e.content, e.goodAt, Now(s), Max(cfg.interval, 1) - 1 + cfg.delay)
  {
    RecheckKeepsEntry(cfg, s.past, s.entries[id], statAt);
    hide AlwaysHonest;
  }

  lemma StampKeeps(cfg: Config, s: Server, c: nat, key: Key, id: nat, statAt: nat)
    requires Sound(cfg, s) && RequestSound(cfg, s, Unchanged(key, id, statAt)) && Now(s) <= statAt + cfg.delay
    ensures Sound(cfg, Stamped(s, c, key, id, statAt))
  {
    RestampKeeps(cfg, s, key, id, statAt);
    RestampIsFresh(cfg, s, key, id, statAt);
    var e := Restamped(s, id, statAt);
    var s1 := s.(entries := s.entries[id := e]);
    assert s1.past == s.past != [];
    hide Sound, FreshEnough, RequestSound, Serve;
    ServeKeeps(cfg, s1, c, key, e);
  }

  lemma AddKeeps(cfg: Config, s: Server, e: Entry)
    requires Sound(cfg, s) && EntrySound(cfg, s.past, e)
    ensures Sound(cfg,
              s.(entries := s.entries[s.nextId := e], cache := s.cache[e.path := s.nextId], nextId := s.nextId + 1))
  {
    hide AlwaysHonest, EntrySound, RequestSound;
    EntriesMayChange(cfg, s,
      s.(entries := s.entries[s.nextId := e], cache := s.cache[e.path := s.nextId], nextId := s.nextId + 1));
  }

  lemma InsertKeeps(cfg: Config, s: Server, c: nat, at: At)
    requires Sound(cfg, s) && at.ReadIn? && RequestSound(cfg, s, at) && Now(s) <= at.readAt + cfg.delay
    ensures Sound(cfg, Inserted(s, c, at.key, at.path, at.mtime, at.statAt, at.content, at.readAt))
  {
    hide Sound;
    var e := Entry(at.path, at.mtime, at.content, Now(s), at.statAt, at.readAt, at.readAt);
    AddKeeps(cfg, s, e);
    var s1 := s.(entries := s.entries[s.nextId := e], cache := s.cache[e.path := s.nextId], nextId := s.nextId + 1);
    MoveKeeps(cfg, s1, c, Served(at.key, e.path, e.content, e.goodAt, Now(s)));
  }

  lemma LookUpKeeps(cfg: Config, s: Server, c: nat, key: Key, path: Path)
    requires Sound(cfg, s)
    ensures Sound(cfg, LookedUp(cfg, s, c, key, path))
  {
    var at := LookedUp(cfg, s, c, key, path).requests[c];
    if path in s.cache {
      var e := s.entries[s.cache[path]];
      if Now(s) - e.lastChecked < cfg.interval { HitIsFresh(cfg, s.past, e); }
    }
    assert RequestSound(cfg, s, at);
    hide Sound, RequestSound;
    MoveKeeps(cfg, s, c, at);
  }

  lemma UnchangedSound(cfg: Config, s: Server, key: Key, path: Path, id: nat)
    requires Sound(cfg, s) && RequestSound(cfg, s, Stale(key, path, id))
    requires path in Present(s) && Present(s)[path].mtime == s.entries[id].mtime
    ensures RequestSound(cfg, s, Unchanged(key, id, Now(s)))
  {
    assert EntrySound(cfg, s.past, s.entries[id]);
    hide AlwaysHonest;
  }

  lemma NeedsLoadKeeps(cfg: Config, s: Server, c: nat, key: Key)
    requires Sound(cfg, s)
    ensures Sound(cfg, Move(s, c, NeedsLoad(key)))
  {
    hide Sound;
    MoveKeeps(cfg, s, c, NeedsLoad(key));
  }

  lemma CompareKeeps(cfg: Config, s: Server, c: nat, key: Key, path: Path, id: nat)
    requires Sound(cfg, s) && RequestSound(cfg, s, Stale(key, path, id))
    ensures Sound(cfg, Compared(cfg, s, c, key, path, id))
  {
    assert s.past != [] && id in s.entries;
    hide Sound, RequestSound, Move;
    if path in Present(s) && Present(s)[path].mtime == s.entries[id].mtime {
      UnchangedSound(cfg, s, key, path, id);
      MoveKeeps(cfg, s, c, Unchanged(key, id, Now(s)));
    } else {
      NeedsLoadKeeps(cfg, s, c, key);
      MapsKeep(cfg, s, s.keyToPath - {key}, {path});
      NeedsLoadKeeps(cfg, s.(keyToPath := s.keyToPath - {key}, cache := s.cache - {path}), c, key);
    }
  }

  /** Looking up the path of a key, and the two looks at a file being loaded. */
  lemma PlainGoKeeps(cfg: Config, s: Server, c: nat)
    requires Sound(cfg, s) && Possible(cfg, s, Go(c))
    requires s.requests[c].Start? || s.requests[c].Loading? || s.requests[c].Statted?
    ensures Sound(cfg, GoOn(cfg, s, c))
  {
    assert RequestSound(cfg, s, s.requests[c]);
    hide Sound;
    MoveKeeps(cfg, s, c, GoOn(cfg, s, c).requests[c]);
  }

  lemma GoKeeps(cfg: Config, s: Server, c: nat)
    requires Sound(cfg, s) && Possible(cfg, s, Go(c))
    ensures Sound(cfg, GoOn(cfg, s, c))
  {
    var at := s.requests[c];
    assert RequestSound(cfg, s, at);
    hide Sound, LookedUp, Compared, Stamped, Inserted, RequestSound;
    match at
    case Unchanged(key, id, statAt) => StampKeeps(cfg, s, c, key, id, statAt);
    case ReadIn(_, _, _, _, _, _) => InsertKeeps(cfg, s, c, at);
    case HasPath(key, path) => LookUpKeeps(cfg, s, c, key, path);
    case Stale(key, path, id) => CompareKeeps(cfg, s, c, key, path, id);
    case Start(_) => PlainGoKeeps(cfg, s, c);
    case Loading(_, _) => PlainGoKeeps(cfg, s, c);
    case Statted(_, _, _, _) => PlainGoKeeps(cfg, s, c);
    case _ =>
  }

  lemma NotedKeeps(cfg: Config, s: Server, c: nat, path: Path, at: At)
    requires Sound(cfg, s) && c in s.requests && (at.Loading? || at.NotServed?)
    ensures Sound(cfg, Noted(s, c, path, at))
  {
    hide Sound;
    var keyToPath := s.keyToPath[s.requests[c].key := path];
    MapsKeep(cfg, s, keyToPath, {});
    assert s.cache - {} == s.cache;
    MoveKeeps(cfg, s.(keyToPath := keyToPath), c, at);
  }

  /** Every step, of a request or of the surroundings, keeps the server sound. */
  lemma AfterKeeps(cfg: Config, s: Server, step: Step)
    requires Sound(cfg, s) && Possible(cfg, s, step)
    ensures Sound(cfg, After(cfg, s, step))
  {
    assert s.past != [];
    hide Sound, GoOn, Honest, Noted;
    match step
    case Advance(disk) => AdvanceKeeps(cfg, s, disk);
    case Go(c) => GoKeeps(cfg, s, c);
    case Evict(path) => MapsKeep(cfg, s, s.keyToPath, {path});
    case Request(c, key) => MoveKeeps(cfg, s, c, Start(key));
    case Resolve(c, path, _) => NotedKeeps(cfg, s, c, path, Loading(s.requests[c].key, path));
    case TooLarge(c, path) => NotedKeeps(cfg, s, c, path, NotServed(s.requests[c].key));
    case Miss(c) => MoveKeeps(cfg, s, c, NotServed(s.requests[c].key));
  }

  // ---------------------------------------------------------------------
  // Every run
  // ---------------------------------------------------------------------

  function Boot(disk: Disk): Server {
    Server([disk], map[], map[], map[], map[], 0)
  }

  lemma BootSound(cfg: Config, disk: Disk)
    ensures Sound(cfg, Boot(disk))
  {
  }

  /** The server after some steps, if each of them is possible when it comes. */
  ghost function Run(cfg: Config, disk: Disk, steps: seq<Step>): (r: Option<Server>)
    ensures r.Some? ==> Sound(cfg, r.value)
  {
    if steps == [] then
      BootSound(cfg, disk);
      Some(Boot(disk))
    else
      match Run(cfg, disk, steps[..|steps| - 1])
      case None => None
      case Some(s) =>
        if Possible(cfg, s, steps[|steps| - 1]) then
          AfterKeeps(cfg, s, steps[|steps| - 1]);
          Some(After(cfg, s, steps[|steps| - 1]))
        else None
  }

  lemma RunThen(cfg: Config, disk: Disk, steps: seq<Step>, step: Step)
    requires Run(cfg, disk, steps).Some? && Possible(cfg, Run(cfg, disk, steps).value, step)
    ensures Run(cfg, disk, steps + [step]) == Some(After(cfg, Run(cfg, disk, steps).value, step))
  {
    var all := steps + [step];
    assert all[..|all| - 1] == steps && all[|all| - 1] == step;
    hide Possible, After, Sound;
    assert Run(cfg, disk, all) == Run(cfg, disk, steps + [step]);
  }

  /** `s` comes about from a fresh server over `disk` in some number of steps. */
  ghost predicate Reachable(cfg: Config, disk: Disk, s: Server) {
    exists steps :: Run(cfg, disk, steps) == Some(s)
  }

  lemma ReachableSound(cfg: Config, disk: Disk, s: Server)
    requires Reachable(cfg, disk, s)
    ensures Sound(cfg, s)
  {
    hide Sound;
  }

  // ---------------------------------------------------------------------
  // Whose file it is
  // ---------------------------------------------------------------------

  /** A request for the key was found, in one of the steps, to be for this file. */
  ghost predicate Named(steps: seq<Step>, key: Key, path: Path) {
    exists c, step :: Request(c, key) in steps && step in steps && Names(step, c, path)
  }

  predicate Names(step: Step, c: nat, path: Path) {
    step == TooLarge(c, path) || (step.Resolve? && step.c == c && step.path == path)
  }

  lemma NamedStays(steps: seq<Step>, step: Step, key: Key, path: Path)
    requires Named(steps, key, path)
    ensures Named(steps + [step], key, path)
  {
  }

  /** A request is only concerned with files that its key was found to name. */
  ghost predicate KeyedAt(steps: seq<Step>, s: Server, at: At) {
    match at
    case HasPath(key, path) => Named(steps, key, path)
    case Stale(key, path, _) => Named(steps, key, path)
    case Unchanged(key, id, _) => id in s.entries && Named(steps, key, s.entries[id].path)
    case Loading(key, path) => Named(steps, key, path)
    case Statted(key, path, _, _) => Named(steps, key, path)
    case ReadIn(key, path, _, _, _, _) => Named(steps, key, path)
    case Served(key, path, _, _, _) => Named(steps, key, path)
    case _ => true
  }

  ghost predicate Keyed(steps: seq<Step>, s: Server) {
    && (forall c :: c in s.requests ==> Request(c, s.requests[c].key) in steps && KeyedAt(steps, s, s.requests[c]))
    && (forall k :: k in s.keyToPath ==> Named(steps, k, s.keyToPath[k]))
  }

  lemma KeyedAtStays(steps: seq<Step>, step: Step, s: Server, s': Server, at: At)
    requires KeyedAt(steps, s, at) && EntriesStay(s, s')
    ensures KeyedAt(steps + [step], s', at)
  {
    hide Named;
    match at
    case HasPath(key, path) => NamedStays(steps, step, key, path);
    case Stale(key, path, _) => NamedStays(steps, step, key, path);
    case Unchanged(key, id, _) => NamedStays(steps, step, key, s.entries[id].path);
    case Loading(key, path) => NamedStays(steps, step, key, path);
    case Statted(key, path, _, _) => NamedStays(steps, step, key, path);
    case ReadIn(key, path, _, _, _, _) => NamedStays(steps, step, key, path);
    case Served(key, path, _, _, _) => NamedStays(steps, step, key, path);
    case _ =>
  }

  /** One request moves, entries are touched as little as that, and no key is noted. */
  predicate Moves(s: Server, s': Server, c: nat, at: At) {
    && s'.requests == s.requests[c := at] && EntriesStay(s, s')
    && forall k :: k in s'.keyToPath ==> k in s.keyToPath && s'.keyToPath[k] == s.keyToPath[k]
  }

  lemma KeyedMove(steps: seq<Step>, step: Step, s: Server, s': Server, c: nat, at: At)
    requires Keyed(steps, s) && Moves(s, s', c, at)
    requires Request(c, at.key) in steps + [step] && KeyedAt(steps + [step], s', at)
    ensures Keyed(steps + [step], s')
  {
    hide Named, KeyedAt, EntriesStay;
    forall d | d in s'.requests
      ensures Request(d, s'.requests[d].key) in steps + [step] && KeyedAt(steps + [step], s', s'.requests[d])
    {
      if d != c { KeyedAtStays(steps, step, s, s', s.requests[d]); }
    }
    forall k | k in s'.keyToPath
      ensures Named(steps + [step], k, s'.keyToPath[k])
    {
      NamedStays(steps, step, k, s.keyToPath[k]);
    }
  }

  lemma KeyedIdle(steps: seq<Step>, step: Step, s: Server, s': Server)
    requires Keyed(steps, s) && s'.requests == s.requests && s'.entries == s.entries && s'.keyToPath == s.keyToPath
    ensures Keyed(steps + [step], s')
  {
    hide Named, KeyedAt;
    forall d | d in s'.requests
      ensures KeyedAt(steps + [step], s', s'.requests[d])
    {
      KeyedAtStays(steps, step, s, s', s.requests[d]);
    }
    forall k | k in s'.keyToPath
      ensures Named(steps + [step], k, s'.keyToPath[k])
    {
      NamedStays(steps, step, k, s.keyToPath[k]);
    }
  }

  lemma LookUpKeyed(cfg: Config, steps: seq<Step>, s: Server, c: nat, key: Key, path: Path)
    requires Sound(cfg, s) && Named(steps, key, path)
    ensures var s' := LookedUp(cfg, s, c, key, path);
            var at := s'.requests[c];
            at.key == key && KeyedAt(steps, s', at) && Moves(s, s', c, at)
  {
    hide Named, AlwaysHonest, EntrySound, RequestSound;
  }

  lemma CompareKeyed(cfg: Config, steps: seq<Step>, s: Server, c: nat, key: Key, path: Path, id: nat)
    requires Sound(cfg, s) && RequestSound(cfg, s, Stale(key, path, id)) && Named(steps, key, path)
    ensures var s' := Compared(cfg, s, c, key, path, id);
            var at := s'.requests[c];
            at.key == key && KeyedAt(steps, s', at) && Moves(s, s', c, at)
  {
    hide Named, AlwaysHonest, EntrySound;
  }

  lemma StampKeyed(cfg: Config, steps: seq<Step>, s: Server, c: nat, key: Key, id: nat, statAt: nat)
    requires Sound(cfg, s) && id in s.entries && Named(steps, key, s.entries[id].path)
    ensures var s' := Stamped(s, c, key, id, statAt);
            var at := s'.requests[c];
            at.key == key && KeyedAt(steps, s', at) && Moves(s, s', c, at)
  {
    hide Named, Sound, Max;
  }

  lemma InsertKeyed(cfg: Config, steps: seq<Step>, s: Server, c: nat, at0: At)
    requires Sound(cfg, s) && at0.ReadIn? && Named(steps, at0.key, at0.path)
    ensures var s' := Inserted(s, c, at0.key, at0.path, at0.mtime, at0.statAt, at0.content, at0.readAt);
            var at := s'.requests[c];
            at.key == at0.key && KeyedAt(steps, s', at) && Moves(s, s', c, at)
  {
    hide Named, AlwaysHonest, EntrySound, RequestSound;
  }

  lemma PlainGoKeyed(cfg: Config, steps: seq<Step>, s: Server, c: nat)
    requires Sound(cfg, s) && Possible(cfg, s, Go(c)) && Keyed(steps, s)
    requires s.requests[c].Start? || s.requests[c].Loading? || s.requests[c].Statted?
    ensures var s' := GoOn(cfg, s, c);
            var at := s'.requests[c];
            at.key == s.requests[c].key && KeyedAt(steps, s', at) && Moves(s, s', c, at)
  {
    hide Named, Sound;
  }

  /** A request that goes on keeps its key, and its file is still one that the key names. */
  lemma GoKeyed(cfg: Config, steps: seq<Step>, s: Server, c: nat)
    requires Sound(cfg, s) && Possible(cfg, s, Go(c)) && Keyed(steps, s)
    ensures var s' := GoOn(cfg, s, c);
            c in s'.requests &&
            var at := s'.requests[c];
            at.key == s.requests[c].key && KeyedAt(steps, s', at) && Moves(s, s', c, at)
  {
    var at := s.requests[c];
    assert RequestSound(cfg, s, at) && KeyedAt(steps, s, at);
    hide Sound, Keyed, Moves, LookedUp, Compared, Stamped, Inserted, RequestSound, Named;
    match at
    case Unchanged(key, id, statAt) => StampKeyed(cfg, steps, s, c, key, id, statAt);
    case ReadIn(_, _, _, _, _, _) => InsertKeyed(cfg, steps, s, c, at);
    case HasPath(key, path) => LookUpKeyed(cfg, steps, s, c, key, path);
    case Stale(key, path, id) => CompareKeyed(cfg, steps, s, c, key, path, id);
    case Start(_) => PlainGoKeyed(cfg, steps, s, c);
    case Loading(_, _) => PlainGoKeyed(cfg, steps, s, c);
    case Statted(_, _, _, _) => PlainGoKeyed(cfg, steps, s, c);
    case _ =>
  }

  lemma PlainKeyed(steps: seq<Step>, s: Server, at: At)
    requires at.Start? || at.NotServed?
    ensures KeyedAt(steps, s, at)
  {
  }

  lemma NotedKeyed(steps: seq<Step>, step: Step, s: Server, c: nat, path: Path, at: At)
    requires Keyed(steps, s) && c in s.requests && at.key == s.requests[c].key && Names(step, c, path)
    requires at == Loading(at.key, path) || at.NotServed?
    ensures Keyed(steps + [step], Noted(s, c, path, at))
  {
    var all, s' := steps + [step], Noted(s, c, path, at);
    assert Request(c, at.key) in all && step in all;
    assert Named(all, at.key, path) && KeyedAt(all, s', at);
    var moved := Move(s, c, at);
    hide Named, Names;
    KeyedMove(steps, step, s, moved, c, at);
    forall d | d in s'.requests
      ensures KeyedAt(all, s', s'.requests[d])
    {
      KeyedElsewhere(all, moved, s', s'.requests[d]);
    }
  }

  lemma KeyedElsewhere(steps: seq<Step>, s: Server, s': Server, at: At)
    requires KeyedAt(steps, s, at) && s'.entries == s.entries
    ensures KeyedAt(steps, s', at)
  {
    hide Named;
  }

  lemma AfterKeyed(cfg: Config, steps: seq<Step>, s: Server, step: Step)
    requires Sound(cfg, s) && Possible(cfg, s, step) && Keyed(steps, s)
    ensures Keyed(steps + [step], After(cfg, s, step))
  {
    assert s.past != [];
    assert step.Miss? || step.Go? ==> Request(step.c, s.requests[step.c].key) in steps;
    hide Sound, GoOn, KeyedAt, Noted, Keyed;
    var s', all := After(cfg, s, step), steps + [step];
    match step
    case Advance(_) => KeyedIdle(steps, step, s, s');
    case Evict(_) => KeyedIdle(steps, step, s, s');
    case Request(c, key) =>
      PlainKeyed(all, s', Start(key));
      KeyedMove(steps, step, s, s', c, Start(key));
    case Miss(c) =>
      PlainKeyed(all, s', s'.requests[c]);
      KeyedMove(steps, step, s, s', c, s'.requests[c]);
    case Resolve(c, path, _) => NotedKeyed(steps, step, s, c, path, Loading(s.requests[c].key, path));
    case TooLarge(c, path) => NotedKeyed(steps, step, s, c, path, NotServed(s.requests[c].key));
    case Go(c) =>
      GoKeyed(cfg, steps, s, c);
      KeyedAtStays(steps, step, s', s', s'.requests[c]);
      KeyedMove(steps, step, s, s', c, s'.requests[c]);
  }

  lemma {:induction false} RunKeyed(cfg: Config, disk: Disk, steps: seq<Step>)
    requires Run(cfg, disk, steps).Some?
    ensures Keyed(steps, Run(cfg, disk, steps).value)
    decreases |steps|
  {
    if steps != [] {
      var front, last := steps[..|steps| - 1], steps[|steps| - 1];
      assert steps == front + [last];
      hide Keyed, Sound, Possible, After;
      RunKeyed(cfg, disk, front);
      AfterKeyed(cfg, front, Run(cfg, disk, front).value, last);
    }
  }

  /**
   * Over all interleavings of requests and file changes, a request for a key is served a file that a request for that
   * key was found to be for, with what the file held at an instant less than `interval + delay` ago, an interval of
   * zero counting as one.
   */
  lemma ServedIsRecent(cfg: Config, disk: Disk, steps: seq<Step>, c: nat)
    requires Run(cfg, disk, steps).Some?
    requires var s := Run(cfg, disk, steps).value; c in s.requests && s.requests[c].Served?
    ensures var s := Run(cfg, disk, steps).value;
            var a := s.requests[c];
            && Request(c, a.key) in steps && Named(steps, a.key, a.path)
            && a.goodAt <= a.servedAt < a.goodAt + Max(cfg.interval, 1) + cfg.delay
            && Held(s.past, a.goodAt, a.path, a.content)
  {
    var s := Run(cfg, disk, steps).value;
    RunKeyed(cfg, disk, steps);
    assert RequestSound(cfg, s, s.requests[c]) && KeyedAt(steps, s, s.requests[c]);
    hide Run, Named;
  }

  /** If keys always name the same file, what is served is that file. */
  lemma ServedIsTheFileOfTheKey(cfg: Config, disk: Disk, steps: seq<Step>, c: nat, fileOf: Key -> Path)
    requires Run(cfg, disk, steps).Some?
    requires var s := Run(cfg, disk, steps).value; c in s.requests && s.requests[c].Served?
    requires forall d, key, step, path ::
               Request(d, key) in steps && step in steps && Names(step, d, path) ==> path == fileOf(key)
    ensures var a := Run(cfg, disk, steps).value.requests[c]; a.path == fileOf(a.key)
  {
    ServedIsRecent(cfg, disk, steps, c);
    hide Run;
  }

  /** A stale entry whose file has not changed is stamped and served again, without another look at the content. */
  lemma RecheckServesAgain(cfg: Config, s: Server, c: nat, key: Key, path: Path, id: nat)
    requires Sound(cfg, s) && c in s.requests && s.requests[c] == Stale(key, path, id)
    requires id in s.entries && path in Present(s) && Present(s)[path].mtime == s.entries[id].mtime
    ensures var s1 := GoOn(cfg, s, c);
            && s1.past == s.past && Possible(cfg, s1, Go(c))
            && var s2 := GoOn(cfg, s1, c);
               && s2.requests[c].Served? && s2.requests[c].content == s.entries[id].content
               && s2.entries[id].lastChecked == Now(s) && s2.cache == s.cache
  {
    hide Sound;
  }

  /** A changed file that has become too large is dropped from the cache, and its key is forgotten. */
  lemma TooLargeIsDropped(cfg: Config, s: Server, c: nat, key: Key, path: Path, id: nat)
    requires s.past != [] && c in s.requests && s.requests[c] == Stale(key, path, id) && id in s.entries
    requires path in Present(s) && Present(s)[path].mtime != s.entries[id].mtime
    requires |Present(s)[path].content| > cfg.maxFileSize
    ensures var s' := GoOn(cfg, s, c);
            path !in s'.cache && key !in s'.keyToPath && s'.requests[c] == NeedsLoad(key)
  {
  }

  // ---------------------------------------------------------------------
  // Exactly how old what is served can be
  // ---------------------------------------------------------------------

  /** What is served was on the disk less than `age` ago. */
  ghost predicate Younger(past: seq<Disk>, at: At, age: nat)
    requires at.Served?
  {
    exists t: nat :: Held(past, t, at.path, at.content) && t <= at.servedAt < t + age
  }

  ghost predicate AlwaysYounger(cfg: Config, age: nat) {
    forall disk, s, c ::
      Reachable(cfg, disk, s) && c in s.requests && s.requests[c].Served? ==> Younger(s.past, s.requests[c], age)
  }

  lemma ThenReachable(cfg: Config, disk: Disk, s: Server, step: Step) returns (s': Server)
    requires Reachable(cfg, disk, s) && s.past != [] && Possible(cfg, s, step)
    ensures s' == After(cfg, s, step) && Reachable(cfg, disk, s')
  {
    hide Sound, Possible, After;
    var steps :| Run(cfg, disk, steps) == Some(s);
    hide Run;
    RunThen(cfg, disk, steps, step);
    s' := After(cfg, s, step);
  }

  lemma BootReachable(cfg: Config, disk: Disk)
    ensures Reachable(cfg, disk, Boot(disk))
  {
    hide Sound;
    var none: seq<Step> := [];
    assert Run(cfg, disk, none) == Some(Boot(disk));
  }

  const ONE_FILE: Disk := map[0 := Version(1, [])]
  const NO_FILE: Disk := map[]

  /** From the second instant on there is no file. */
  predicate GoneSince(past: seq<Disk>, now: nat) {
    |past| == now + 1 && past[0] == ONE_FILE && forall t :: 1 <= t < |past| ==> past[t] == NO_FILE
  }

  /** Time passes without the file; nothing else happens. */
  lemma {:induction false} Vanish(cfg: Config, s: Server, now: nat, n: nat) returns (s': Server)
    requires Reachable(cfg, ONE_FILE, s) && GoneSince(s.past, now)
    ensures Reachable(cfg, ONE_FILE, s') && s' == s.(past := s'.past) && GoneSince(s'.past, now + n)
    decreases n
  {
    s' := s;
    if n > 0 {
      hide Reachable;
      s' := ThenReachable(cfg, ONE_FILE, s, Advance(NO_FILE));
      s' := Vanish(cfg, s', now + 1, n - 1);
    }
  }

  /** A request has read the file at the first instant, and not noted the time yet. */
  lemma FileRead(cfg: Config) returns (s: Server)
    ensures Reachable(cfg, ONE_FILE, s) && GoneSince(s.past, 0)
    ensures 0 in s.keyToPath && s.keyToPath[0] == 0
    ensures 0 in s.requests && s.requests[0] == ReadIn(0, 0, 1, 0, [], 0) && 1 !in s.requests
  {
    BootReachable(cfg, ONE_FILE);
    hide Reachable;
    s := ThenReachable(cfg, ONE_FILE, Boot(ONE_FILE), Request(0, 0));
    s := ThenReachable(cfg, ONE_FILE, s, Go(0));
    s := ThenReachable(cfg, ONE_FILE, s, Resolve(0, 0, false));
    s := ThenReachable(cfg, ONE_FILE, s, Go(0));
    s := ThenReachable(cfg, ONE_FILE, s, Go(0));
  }

  /** Key 0 leads to an entry that was stamped at the end of the delay. */
  predicate Stamped0(cfg: Config, s: Server) {
    && 0 in s.keyToPath && s.keyToPath[0] == 0 && 0 in s.cache && s.cache[0] in s.entries && 1 !in s.requests
    && var e := s.entries[s.cache[0]]; e.lastChecked == cfg.delay && e.content == [] && e.path == 0
  }

  lemma FileStamped(cfg: Config) returns (s: Server)
    ensures Reachable(cfg, ONE_FILE, s) && GoneSince(s.past, cfg.delay) && Stamped0(cfg, s)
    ensures 0 in s.requests && s.requests[0] == Served(0, 0, [], 0, cfg.delay)
  {
    s := FileRead(cfg);
    hide Reachable;
    s := Vanish(cfg, s, 0, cfg.delay);
    s := ThenReachable(cfg, ONE_FILE, s, Go(0));
  }

  /** A request that finds a fresh entry is served from it. */
  lemma Hit(cfg: Config, disk: Disk, s: Server, c: nat, key: Key) returns (s': Server)
    requires Reachable(cfg, disk, s) && s.past != [] && c !in s.requests && key in s.keyToPath
    requires s.keyToPath[key] in s.cache && s.cache[s.keyToPath[key]] in s.entries
    requires Now(s) - s.entries[s.cache[s.keyToPath[key]]].lastChecked < cfg.interval
    ensures Reachable(cfg, disk, s') && s'.past == s.past && c in s'.requests
    ensures var e := s.entries[s.cache[s.keyToPath[key]]];
            s'.requests[c] == Served(key, e.path, e.content, e.goodAt, Now(s))
  {
    hide Reachable;
    s' := ThenReachable(cfg, disk, s, Request(c, key));
    s' := ThenReachable(cfg, disk, s', Go(c));
    s' := ThenReachable(cfg, disk, s', Go(c));
  }

  lemma GoneIsNotHeld(past: seq<Disk>, now: nat)
    requires GoneSince(past, now)
    ensures forall t, content :: Held(past, t, 0, content) ==> t == 0
  {
  }

  /** Stamped as late and served as late as can be: what is served is gone for `interval + delay - 1` instants. */
  lemma OldestServed(cfg: Config) returns (s: Server, c: nat)
    ensures Reachable(cfg, ONE_FILE, s) && c in s.requests && s.requests[c].Served?
    ensures s.requests[c].servedAt == Max(cfg.interval, 1) + cfg.delay - 1
    ensures forall t :: Held(s.past, t, s.requests[c].path, s.requests[c].content) ==> t == 0
  {
    s := FileStamped(cfg);
    c := 0;
    GoneIsNotHeld(s.past, cfg.delay);
    hide Reachable, Held;
    if cfg.interval > 0 {
      s := Vanish(cfg, s, cfg.delay, cfg.interval - 1);
      GoneIsNotHeld(s.past, cfg.delay + cfg.interval - 1);
      s := Hit(cfg, ONE_FILE, s, 1, 0);
      c := 1;
    }
  }

  lemma ReachableIsRecent(cfg: Config, disk: Disk, s: Server, c: nat)
    requires Reachable(cfg, disk, s) && c in s.requests && s.requests[c].Served?
    ensures Younger(s.past, s.requests[c], Max(cfg.interval, 1) + cfg.delay)
  {
    var steps :| Run(cfg, disk, steps) == Some(s);
    hide Run;
    ServedIsRecent(cfg, disk, steps, c);
  }

  /**
   * Over all interleavings, everything served was on the disk less than `age` ago if and only if `age` is at least
   * the recheck interval and the delay together, an interval of zero counting as one.
   */
  lemma AgeBoundIff(cfg: Config, age: nat)
    ensures AlwaysYounger(cfg, age) <==> age >= Max(cfg.interval, 1) + cfg.delay
  {
    hide Reachable;
    if age >= Max(cfg.interval, 1) + cfg.delay {
      forall disk, s, c | Reachable(cfg, disk, s) && c in s.requests && s.requests[c].Served?
        ensures Younger(s.past, s.requests[c], age)
      {
        ReachableIsRecent(cfg, disk, s, c);
      }
    } else {
      var s, c := OldestServed(cfg);
      assert !Younger(s.past, s.requests[c], age);
    }
  }

  /** The interval alone bounds the age of what is served exactly when the time of a look is noted without delay. */
  lemma AlwaysRecentIff(cfg: Config)
    requires cfg.interval > 0
    ensures AlwaysYounger(cfg, cfg.interval) <==> cfg.delay == 0
  {
    hide AlwaysYounger;
    AgeBoundIff(cfg, cfg.interval);
  }
}
