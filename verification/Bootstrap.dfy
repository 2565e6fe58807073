// The launcher's bootstrap in packaging/launcher.py: what it leaves on disk when it is killed anywhere,
// when the fast path is taken, and when a run may lower the installed version.
module Bootstrap {
  import opened Audio

  /** File contents by path: the app directory without its .venv. */
  type Tree = map<string, string>

  /** What a completed `uv sync` ran on. */
  datatype Sync = Sync(app: Tree, extra: string)

  /** The virtual environment: whether the app executable is there, and what it is in sync with, if anything. */
  datatype Venv = Venv(exe: bool, synced: Option<Sync>)

  /** installed.json. A missing and an unreadable file are the same to the launcher. */
  datatype Installed = Installed(version: string, extra: string)

  datatype Disk = Disk(installed: Option<Installed>, app: Tree, venv: Venv)

  /** The source tree of a version, and how version strings are read as tuples (None when malformed). */
  datatype Releases = Releases(tree: string -> Tree, parse: string -> Option<seq<int>>)

  // ------------------------------------------------------------------ versions

  /** Python's comparison of tuples: a <= b. */
  predicate AtMost(a: seq<int>, b: seq<int>)
    decreases |a|
  {
    a == [] || (b != [] && (a[0] < b[0] || (a[0] == b[0] && AtMost(a[1..], b[1..]))))
  }

  lemma {:induction false} AtMostTotal(a: seq<int>, b: seq<int>)
    ensures AtMost(a, b) || AtMost(b, a)
    ensures AtMost(a, b) && AtMost(b, a) ==> a == b
    decreases |a|
  {
    if a != [] && b != [] && a[0] == b[0] {
      AtMostTotal(a[1..], b[1..]);
      assert a == [a[0]] + a[1..] && b == [b[0]] + b[1..];
    }
  }

  lemma {:induction false} AtMostTransitive(a: seq<int>, b: seq<int>, c: seq<int>)
    requires AtMost(a, b) && AtMost(b, c)
    ensures AtMost(a, c)
    decreases |a|
  {
    if a != [] && a[0] == b[0] == c[0] {
      AtMostTransitive(a[1..], b[1..], c[1..]);
    }
  }

  /** The first component in which two versions differ decides; a version is older than its own extensions. */
  lemma {:induction false} FirstDifference(p: seq<int>, a: seq<int>, b: seq<int>)
    ensures AtMost(p, p + b)
    ensures a != [] && b != [] && a[0] != b[0] ==> (AtMost(p + a, p + b) <==> a[0] < b[0])
    ensures b != [] ==> !AtMost(p + b, p)
    decreases |p|
  {
    if p == [] {
      assert p + a == a && p + b == b;
    } else {
      assert (p + a)[1..] == p[1..] + a && (p + b)[1..] == p[1..] + b;
      FirstDifference(p[1..], a, b);
    }
  }

  /** installed_version_satisfies */
  predicate Satisfies(installed: string, wanted: string, r: Releases) {
    if r.parse(installed) == None || r.parse(wanted) == None then installed == wanted
    else AtMost(r.parse(wanted).value, r.parse(installed).value)
  }

  /** Readable versions are compared, newer or equal being enough; an unreadable one must be the very same string. */
  lemma SatisfiesMeans(installed: string, wanted: string, r: Releases)
    ensures r.parse(installed) == None || r.parse(wanted) == None
            ==> (Satisfies(installed, wanted, r) <==> installed == wanted)
    ensures r.parse(installed).Some? && r.parse(wanted).Some? ==>
              (Satisfies(installed, wanted, r) <==> !Older(installed, wanted, r))
  {
    if r.parse(installed).Some? && r.parse(wanted).Some? {
      AtMostTotal(r.parse(installed).value, r.parse(wanted).value);
    }
  }

  /** a is a strictly older version than b, both well-formed. */
  predicate Older(a: string, b: string, r: Releases) {
    r.parse(a).Some? && r.parse(b).Some? && !AtMost(r.parse(b).value, r.parse(a).value)
  }

  // ------------------------------------------------------------------ a consistent install

  /** The install is what installed.json says: the whole tree of the version, and an environment in sync with it. */
  predicate Complete(d: Disk, r: Releases) {
    && d.installed.Some?
    && d.app == r.tree(d.installed.value.version)
    && d.venv == Venv(true, Some(Sync(d.app, d.installed.value.extra)))
  }

  predicate Sound(d: Disk, r: Releases) {
    d.installed.Some? ==> Complete(d, r)
  }

  /** What a bootstrap of a version and extra may leave behind, wherever it stops. */
  predicate Leaves(before: Disk, after: Disk, version: string, extra: string, r: Releases) {
    || after == before
    || after.installed == None
    || (after.installed == Some(Installed(version, extra)) && Complete(after, r))
  }

  // ------------------------------------------------------------------ what a launch decides

  datatype Launch =
    | Ordinary(meta: Option<string>, requested: Option<string>, detected: string)
    | Update(version: string, latest: bool, requested: Option<string>, detected: string)

  datatype Choice = FastPath | Install(version: string, extra: string) | NothingToDo

  /** detect_device: the flag, then the recorded extra, then the hardware. */
  function Device(requested: Option<string>, installed: Option<Installed>, detected: string): string {
    if requested.Some? then requested.value
    else if installed.Some? && installed.value.extra in {"cpu", "cu121"} then installed.value.extra
    else detected
  }

  predicate IsInstalled(d: Disk) {
    d.installed.Some? && d.installed.value.version != "" && d.venv.exe
  }

  function Choose(d: Disk, l: Launch, r: Releases): Choice {
    match l
    case Update(version, latest, requested, detected) =>
      if d.installed.Some? && version == d.installed.value.version && latest then NothingToDo
      else Install(version, Device(requested, d.installed, detected))
    case Ordinary(meta, requested, detected) =>
      var versionMatches := meta == None || (IsInstalled(d) && Satisfies(d.installed.value.version, meta.value, r));
      var extraMatches := requested == None || (IsInstalled(d) && d.installed.value.extra == requested.value);
      if IsInstalled(d) && versionMatches && extraMatches then FastPath
      else if meta == None then NothingToDo
      else Install(meta.value, Device(requested, d.installed, detected))
  }

  /** When a start takes the fast path, and what it installs otherwise. */
  lemma ChoiceMeans(d: Disk, l: Launch, r: Releases)
    requires Sound(d, r)
    ensures var here := d.installed.Some? && d.installed.value.version != "";
      match l
      case Ordinary(meta, requested, _) =>
        var current := here && (meta == None || Satisfies(d.installed.value.version, meta.value, r))
                       && (requested == None || requested == Some(d.installed.value.extra));
        && (Choose(d, l, r) == FastPath <==> current)
        && (Choose(d, l, r).Install? <==> !current && meta.Some?)
        && (Choose(d, l, r).Install? ==> Choose(d, l, r).version == meta.value)
      case Update(version, latest, _, _) =>
        && Choose(d, l, r) != FastPath
        && (Choose(d, l, r).Install? <==> !(latest && d.installed.Some? && d.installed.value.version == version))
        && (Choose(d, l, r).Install? ==> Choose(d, l, r).version == version)
  {
  }

  /** The device asked for comes first, then the recorded one, and the detected one only without either. */
  lemma DeviceMeans(d: Disk, l: Launch, r: Releases)
    requires Choose(d, l, r).Install?
    ensures var extra := Choose(d, l, r).extra;
      var recorded := d.installed.Some? && (d.installed.value.extra == "cpu" || d.installed.value.extra == "cu121");
      && (l.requested.Some? ==> extra == l.requested.value)
      && (l.requested == None && recorded ==> extra == d.installed.value.extra)
      && (l.requested == None && !recorded ==> extra == l.detected)
  {
  }

  /** One start of the launcher, killed anywhere or not at all. */
  predicate Leads(before: Disk, l: Launch, after: Disk, r: Releases) {
    match Choose(before, l, r)
    case Install(version, extra) => Leaves(before, after, version, extra, r)
    case _ => after == before
  }

  /** A history of the disk over consecutive starts. */
  predicate History(ds: seq<Disk>, ls: seq<Launch>, r: Releases) {
    |ds| == |ls| + 1 && forall i | 0 <= i < |ls| :: Happens(ds, ls, i, r)
  }

  predicate Happens(ds: seq<Disk>, ls: seq<Launch>, i: nat, r: Releases)
    requires |ds| == |ls| + 1 && i < |ls|
  {
    Leads(ds[i], ls[i], ds[i + 1], r)
  }

  // ------------------------------------------------------------------ crash consistency

  lemma {:induction false} AlwaysSound(ds: seq<Disk>, ls: seq<Launch>, i: nat, r: Releases)
    requires History(ds, ls, r) && Sound(ds[0], r) && i < |ds|
    ensures Sound(ds[i], r)
  {
    if i > 0 {
      AlwaysSound(ds, ls, i - 1, r);
      assert Happens(ds, ls, i - 1, r);
    }
  }

  /** Whatever was killed before, the fast path is only taken on a complete install of what is recorded. */
  lemma FastPathIsSafe(ds: seq<Disk>, ls: seq<Launch>, i: nat, r: Releases)
    requires History(ds, ls, r) && Sound(ds[0], r) && i < |ls|
    requires Choose(ds[i], ls[i], r) == FastPath
    ensures Complete(ds[i], r) && ds[i + 1] == ds[i]
    ensures ls[i].Ordinary? && (ls[i].requested.Some? ==> ds[i].installed.value.extra == ls[i].requested.value)
  {
    AlwaysSound(ds, ls, i, r);
    assert Happens(ds, ls, i, r);
  }

  // ------------------------------------------------------------------ when a version is lowered

  /**
   * Exactly when an ordinary run sets out to install something older than the version `last` that was
   * recorded last: the launcher's own version is older, and either installed.json is gone (an update was
   * killed) or the requested extra is not the recorded one.
   */
  lemma LowersIff(d: Disk, l: Launch, last: string, r: Releases)
    requires Sound(d, r) && l.Ordinary? && l.meta.Some? && r.parse("") == None
    requires r.parse(last).Some? && r.parse(l.meta.value).Some?
    requires d.installed.Some? ==> d.installed.value.version == last
    ensures (Choose(d, l, r).Install? && Older(Choose(d, l, r).version, last, r))
      <==> (Older(l.meta.value, last, r)
            && (d.installed == None || (l.requested.Some? && l.requested.value != d.installed.value.extra)))
  {
    AtMostTotal(r.parse(last).value, r.parse(l.meta.value).value);
  }

  /** An ordinary run of one launcher that does not ask for another device than the recorded one. */
  predicate Steady(d: Disk, l: Launch, meta: string) {
    && l.Ordinary? && l.meta == Some(meta)
    && (l.requested.Some? && d.installed.Some? ==> l.requested.value == d.installed.value.extra)
  }

  /** From a recorded version on: it is still recorded, or the launcher's newer version is, or is being installed. */
  predicate NotBelow(d: Disk, version: string, meta: string, r: Releases) {
    match d.installed
    case None => Older(version, meta, r)
    case Some(i) => i.version == version || (i.version == meta && Older(version, meta, r))
  }

  lemma SteadyStep(before: Disk, l: Launch, after: Disk, version: string, meta: string, r: Releases)
    requires Sound(before, r) && Leads(before, l, after, r) && Steady(before, l, meta)
    requires r.parse("") == None && r.parse(version).Some? && r.parse(meta).Some?
    requires NotBelow(before, version, meta, r)
    ensures NotBelow(after, version, meta, r)
  {
    AtMostTotal(r.parse(meta).value, r.parse(meta).value);
    AtMostTotal(r.parse(version).value, r.parse(meta).value);
  }

  lemma {:induction false} SteadyRuns(ds: seq<Disk>, ls: seq<Launch>, i: nat, j: nat, meta: string, r: Releases)
    requires History(ds, ls, r) && Sound(ds[0], r) && i <= j < |ds|
    requires forall k | 0 <= k < |ls| :: Steady(ds[k], ls[k], meta)
    requires ds[i].installed.Some? && r.parse(ds[i].installed.value.version).Some?
    requires r.parse("") == None && r.parse(meta).Some?
    ensures NotBelow(ds[j], ds[i].installed.value.version, meta, r)
  {
    if i < j {
      SteadyRuns(ds, ls, i, j - 1, meta, r);
      AlwaysSound(ds, ls, j - 1, r);
      assert Happens(ds, ls, j - 1, r);
      SteadyStep(ds[j - 1], ls[j - 1], ds[j], ds[i].installed.value.version, meta, r);
    }
  }

  /** Ordinary runs of one launcher, killed anywhere and repeated, never lower the installed version. */
  lemma NeverLowered(ds: seq<Disk>, ls: seq<Launch>, i: nat, j: nat, meta: string, r: Releases)
    requires History(ds, ls, r) && Sound(ds[0], r) && i <= j < |ds|
    requires forall k | 0 <= k < |ls| :: Steady(ds[k], ls[k], meta)
    requires ds[i].installed.Some? && r.parse(ds[i].installed.value.version).Some? && ds[j].installed.Some?
    requires r.parse("") == None && r.parse(meta).Some?
    ensures !Older(ds[j].installed.value.version, ds[i].installed.value.version, r)
  {
    SteadyRuns(ds, ls, i, j, meta, r);
    AtMostTotal(r.parse(ds[i].installed.value.version).value, r.parse(ds[i].installed.value.version).value);
    AtMostTotal(r.parse(ds[i].installed.value.version).value, r.parse(meta).value);
  }

  // ------------------------------------------------------------------ the bootstrap, step by step

  datatype Outcome = Finished | Raised | Killed

  /** What the outside answers during one bootstrap, and what uv does to the environment on its way. */
  datatype World = World(
    downloaded: bool, unlinked: bool, uvFound: bool, syncing: seq<Venv>, syncOk: bool, exe: bool)

  predicate GoesWell(w: World) {
    w.downloaded && w.uvFound && w.syncOk && w.exe
  }

  /** How many changes to the disk a bootstrap makes until installed.json is written. */
  function Cost(d: Disk, version: string, w: World, r: Releases): nat {
    |d.app| + |r.tree(version)| + |w.syncing| + 3
  }

  class Launcher {
    const r: Releases
    var disk: Disk
    var left: nat // steps on the disk before the process is killed

    constructor (r: Releases, disk: Disk)
      ensures this.r == r && this.disk == disk && left == 0
    {
      this.r, this.disk, left := r, disk, 0;
    }

    /** Changes the disk, unless the process has been killed. */
    method Change(to: Disk) returns (alive: bool)
      modifies `disk, `left
      ensures disk == (if alive then to else old(disk))
      ensures if old(left) > 0 then alive && left == old(left) - 1 else !alive && left == 0
    {
      alive := left > 0;
      if alive {
        left := left - 1;
        disk := to;
      }
    }

    /** Deletes installed.json; an error of the deletion is ignored. */
    method MarkInstallDirty(unlinked: bool) returns (alive: bool)
      modifies `disk, `left
      ensures disk == (if alive && unlinked then old(disk).(installed := None) else old(disk))
      ensures if old(left) > 0 then alive && left == old(left) - 1 else !alive && left == 0
    {
      alive := Change(if unlinked then disk.(installed := None) else disk);
    }

    /** Removes the files of app/ one by one, in any order; .venv stays. */
    method ClearAppDir() returns (alive: bool)
      modifies `disk, `left
      ensures disk.installed == old(disk.installed) && disk.venv == old(disk.venv)
      ensures alive ==> disk.app == map[]
      ensures !alive ==> |disk.app| == |old(disk.app)| - old(left)
      ensures alive <==> old(left) >= |old(disk.app)|
      ensures alive ==> left == old(left) - |old(disk.app)|
    {
      alive := true;
      while disk.app != map[]
        invariant disk.installed == old(disk.installed) && disk.venv == old(disk.venv)
        invariant |disk.app| <= |old(disk.app)| && left + |old(disk.app)| == old(left) + |disk.app|
        decreases |disk.app|
      {
        var path :| path in disk.app;
        var rest := disk.app - {path};
        assert disk.app == rest[path := disk.app[path]];
        alive := Change(disk.(app := rest));
        if !alive {
          return;
        }
      }
    }

    /** Copies the files of a source tree into the cleared app/ one by one, in any order. */
    method CopyTree(tree: Tree) returns (alive: bool)
      requires disk.app == map[]
      modifies `disk, `left
      ensures disk.installed == old(disk.installed) && disk.venv == old(disk.venv)
      ensures alive ==> disk.app == tree
      ensures alive <==> old(left) >= |tree|
      ensures alive ==> left == old(left) - |tree|
    {
      alive := true;
      var todo := tree.Keys;
      while todo != {}
        invariant disk.installed == old(disk.installed) && disk.venv == old(disk.venv)
        invariant todo <= tree.Keys && disk.app.Keys == tree.Keys - todo
        invariant forall path | path in disk.app :: disk.app[path] == tree[path]
        invariant |todo| <= |tree| && left + |tree| == old(left) + |todo|
        decreases |todo|
      {
        var path :| path in todo;
        alive := Change(disk.(app := disk.app[path := tree[path]]));
        if !alive {
          return;
        }
        todo := todo - {path};
      }
    }

    /** Runs uv. On the way the environment can be anything; a clean exit leaves it in sync with app/. */
    method RunUvSync(extra: string, w: World) returns (o: Outcome)
      modifies `disk, `left
      ensures disk.installed == old(disk.installed) && disk.app == old(disk.app)
      ensures o == Finished ==> disk.venv == Venv(w.exe, Some(Sync(disk.app, extra)))
      ensures o == Finished <==> w.syncOk && old(left) >= |w.syncing| + 1
      ensures o == Finished ==> left == old(left) - |w.syncing| - 1
    {
      var alive;
      for i := 0 to |w.syncing|
        invariant disk.installed == old(disk.installed) && disk.app == old(disk.app)
        invariant left == old(left) - i
      {
        alive := Change(disk.(venv := w.syncing[i]));
        if !alive {
          return Killed;
        }
      }
      if !w.syncOk {
        return Raised;
      }
      alive := Change(disk.(venv := Venv(w.exe, Some(Sync(disk.app, extra)))));
      o := if alive then Finished else Killed;
    }

    /**
     * The whole bootstrap. Wherever it stops, installed.json only ever describes a complete install, unless
     * an old installed.json could not be deleted.
     */
    method RunBootstrap(version: string, extra: string, w: World) returns (o: Outcome)
      modifies `disk, `left
      ensures w.unlinked || old(disk.installed) == None ==> Leaves(old(disk), disk, version, extra, r)
      ensures o == Finished ==> disk.installed == Some(Installed(version, extra)) && Complete(disk, r)
      ensures o == Finished <==> GoesWell(w) && old(left) >= Cost(old(disk), version, w, r)
      ensures w.downloaded && old(left) > 0 && o != Finished ==>
                disk.installed == if w.unlinked then None else old(disk.installed)
      ensures w.downloaded && 0 < old(left) <= |old(disk.app)| ==>
                o == Killed && |disk.app| == |old(disk.app)| - (old(left) - 1)
      ensures !w.downloaded ==> o == Raised && disk == old(disk)
    {
      if !w.downloaded {
        return Raised;
      }
      var alive := MarkInstallDirty(w.unlinked);
      if !alive {
        return Killed;
      }
      alive := ClearAppDir();
      if !alive {
        return Killed;
      }
      alive := CopyTree(r.tree(version));
      if !alive {
        return Killed;
      }
      if !w.uvFound {
        return Raised;
      }
      o := RunUvSync(extra, w);
      if o != Finished {
        return;
      }
      if !disk.venv.exe {
        return Raised;
      }
      alive := Change(disk.(installed := Some(Installed(version, extra))));
      o := if alive then Finished else Killed;
    }

    /** One start of the launcher that may be killed after any number of changes to the disk. */
    method Start(l: Launch, w: World, budget: nat) returns (launched: Option<Installed>)
      requires Sound(disk, r)
      modifies this
      ensures w.unlinked || old(disk.installed) == None ==> Leads(old(disk), l, disk, r) && Sound(disk, r)
      ensures launched.Some? ==> Complete(disk, r) && launched == disk.installed
      ensures Choose(old(disk), l, r) == FastPath ==> launched == old(disk.installed)
      ensures Choose(old(disk), l, r).Install? && launched.Some? ==>
                launched.value.extra ==
                  if l.requested.Some? then l.requested.value
                  else if old(disk.installed).Some? && old(disk.installed).value.extra in {"cpu", "cu121"}
                  then old(disk.installed).value.extra else l.detected
      ensures match Choose(old(disk), l, r)
              case Install(version, extra) =>
                && launched == (if GoesWell(w) && budget >= Cost(old(disk), version, w, r)
                                then Some(Installed(version, extra)) else None)
                && (w.downloaded && budget > 0 && launched == None ==>
                      disk.installed == if w.unlinked then None else old(disk.installed))
                && (w.downloaded && 0 < budget <= |old(disk.app)| ==>
                      |disk.app| == |old(disk.app)| - (budget - 1))
              case _ => true
    {
      left := budget;
      launched := None;
      match Choose(disk, l, r) {
        case FastPath =>
          launched := disk.installed;
        case NothingToDo =>
        case Install(version, extra) =>
          var o := RunBootstrap(version, extra, w);
          if o == Finished {
            launched := disk.installed;
          }
      }
    }
  }

  /** A world in which everything goes well at the first try. */
  function Fair(): World {
    World(true, true, true, [], true, true)
  }

  /** Asking for another device makes a launcher older than the install put its own version back. */
  method LoweredByDevice(r: Releases, d: Disk, older: string) returns (launched: Option<Installed>)
    requires Complete(d, r) && d.installed.value.extra == "cpu" && Older(older, d.installed.value.version, r)
    ensures launched == Some(Installed(older, "cu121"))
  {
    var launcher := new Launcher(r, d);
    launched := launcher.Start(Ordinary(Some(older), Some("cu121"), "cpu"), Fair(), Cost(d, older, Fair(), r));
  }

  /** So does an update that is killed right after it removed installed.json, at the next ordinary start. */
  method LoweredAfterKill(r: Releases, d: Disk, older: string, newer: string)
    returns (during: Option<Installed>, launched: Option<Installed>)
    requires Complete(d, r) && Older(older, d.installed.value.version, r)
    requires newer != d.installed.value.version
    ensures during == None && launched == Some(Installed(older, "cpu"))
  {
    var launcher := new Launcher(r, d);
    during := launcher.Start(Update(newer, true, None, "cpu"), Fair(), 1);
    launched := launcher.Start(Ordinary(Some(older), None, "cpu"), Fair(), Cost(launcher.disk, older, Fair(), r));
  }

  /**
   * If the old installed.json cannot be deleted, the promise fails for every update killed while it clears
   * app/: the file stays and describes an app that is no longer there.
   */
  method TornByFailedUnlink(r: Releases, d: Disk, newer: string, budget: nat) returns (torn: Disk)
    requires Complete(d, r) && newer != d.installed.value.version && 1 < budget <= |d.app|
    ensures torn.installed == d.installed && !Sound(torn, r)
  {
    var launcher := new Launcher(r, d);
    var launched := launcher.Start(Update(newer, true, None, "cpu"), Fair().(unlinked := false), budget);
    torn := launcher.disk;
    assert |torn.app| != |d.app|;
  }
}
