/** The edge function runtime: an in-memory registry that a restart rebuilds from the
    metadata files of the install directory.

    Files are named after the function id; an id with a path separator names a
    directory that does not exist, and a name of more than 255 bytes is too long, so
    writing the file fails. */
module FunctionRuntime {
  import opened Prelude

  type Bytes = seq<int>

  /** `config` stands for the fields that are only copied from the request. */
  datatype Meta = Meta(
    id: string, config: string, uri: string, checksum: string, size: nat, installedAt: int,
    lastInvokedAt: Option<int>, lastError: Option<string>, invocations: nat)

  /** The artifact as it arrives: not allowed, not there, not downloadable, or read. */
  datatype Fetch = BadScheme | FileMissing | DownloadFailed | Fetched(bytes: Bytes)

  datatype InstallRequest = InstallRequest(config: string, uri: string, expected: string, fetch: Fetch)

  /** How an execution ends; one that raises has no result. */
  datatype Result = Result(exitCode: int, stderr: string)

  /** `wasms` and `metas` are the files on disk, by function id. */
  datatype State = State(installed: map<string, Meta>, wasms: map<string, Bytes>, metas: map<string, Meta>)

  datatype Step =
    | Install(id: string, request: InstallRequest, now: int)
    | Invoke(id: string, result: Option<Result>, now: int)
    | Remove(id: string)
    | Restart

  const INIT := State(map[], map[], map[])

  const NAME_MAX := 255
  const WASM_SUFFIX := 5  // the bytes of ".wasm"
  const META_SUFFIX := 10  // the bytes of ".meta.json"

  /** The bytes of a character in UTF-8. */
  function Width(c: char): nat {
    if c as int < 0x80 then 1 else if c as int < 0x800 then 2 else if c as int < 0x1_0000 then 3 else 4
  }

  function NameBytes(id: string): nat {
    if id == "" then 0 else Width(id[0]) + NameBytes(id[1..])
  }

  predicate Writable(id: string, suffix: nat) {
    '/' !in id && NameBytes(id) + suffix <= NAME_MAX
  }

  /** The artifact fits under this name and its metadata does not. */
  predicate LongName(id: string) {
    Writable(id, WASM_SUFFIX) && !Writable(id, META_SUFFIX)
  }

  // ---------------------------------------------------------------------------
  // The endpoints
  // ---------------------------------------------------------------------------

  /** The checks of an installation in order; `hash` is SHA-256 with its prefix. */
  function InstallError(hash: Bytes -> string, id: string, r: InstallRequest): Option<nat> {
    if r.uri == "" || r.fetch.BadScheme? then Some(400)
    else if r.fetch.FileMissing? then Some(404)
    else if r.fetch.DownloadFailed? then Some(502)
    else if r.expected != "" && hash(r.fetch.bytes) != r.expected then Some(422)
    else if !Writable(id, META_SUFFIX) then Some(500)
    else None
  }

  /** The artifact is written before the metadata turns out to have too long a name. */
  predicate LeavesArtifact(hash: Bytes -> string, id: string, r: InstallRequest) {
    && r.uri != "" && r.fetch.Fetched? && LongName(id)
    && (r.expected == "" || hash(r.fetch.bytes) == r.expected)
  }

  function InvokeError(s: State, id: string, result: Option<Result>): Option<nat> {
    if id !in s.installed then Some(404)
    else if id !in s.wasms then Some(409)
    else if result.None? then Some(500)
    else None
  }

  function NewMeta(hash: Bytes -> string, id: string, r: InstallRequest, now: int): Meta
    requires r.fetch.Fetched?
  {
    Meta(id, r.config, r.uri, hash(r.fetch.bytes), |r.fetch.bytes|, now, None, None, 0)
  }

  function Invoked(m: Meta, result: Result, now: int): Meta {
    m.(invocations := m.invocations + 1, lastInvokedAt := Some(now),
       lastError := if result.exitCode != 0 then Some(result.stderr) else None)
  }

  /** A registry that some order of reading the metadata files leaves behind. */
  ghost predicate IsReload(metas: map<string, Meta>, installed: map<string, Meta>) {
    && (forall file :: file in metas ==> metas[file].id in installed)
    && (forall id :: id in installed ==>
          exists file :: file in metas && metas[file].id == id && installed[id] == metas[file])
  }

  ghost predicate Succeeds(hash: Bytes -> string, s: State, step: Step) {
    match step
    case Install(id, r, _) => InstallError(hash, id, r).None?
    case Invoke(id, result, _) => InvokeError(s, id, result).None?
    case Remove(id) => id in s.installed
    case Restart => true
  }

  ghost predicate Next(hash: Bytes -> string, s: State, step: Step, t: State) {
    if !Succeeds(hash, s, step) then
      t == if step.Install? && LeavesArtifact(hash, step.id, step.request)
           then s.(wasms := s.wasms[step.id := step.request.fetch.bytes]) else s
    else
      match step
      case Install(id, r, now) =>
        var m := NewMeta(hash, id, r, now);
        t == State(s.installed[id := m], s.wasms[id := r.fetch.bytes], s.metas[id := m])
      case Invoke(id, result, now) =>
        var m := Invoked(s.installed[id], result.value, now);
        t == s.(installed := s.installed[id := m], metas := s.metas[id := m])
      case Remove(id) => t == State(s.installed - {id}, s.wasms - {id}, s.metas - {id})
      case Restart => t == s.(installed := t.installed) && IsReload(s.metas, t.installed)
  }

  /** A run: the state before each step and after the last. */
  ghost predicate Run(hash: Bytes -> string, states: seq<State>, steps: seq<Step>) {
    && |states| == |steps| + 1 && states[0] == INIT
    && forall i :: 0 <= i < |steps| ==> Next(hash, states[i], steps[i], states[i + 1])
  }

  // ---------------------------------------------------------------------------
  // The registry and the disk
  // ---------------------------------------------------------------------------

  ghost predicate Inv(hash: Bytes -> string, s: State) {
    && s.installed == s.metas && s.metas.Keys <= s.wasms.Keys
    && (forall id :: id in s.metas ==> s.metas[id].id == id && Writable(id, META_SUFFIX))
    && (forall id :: id in s.wasms && id !in s.metas ==> LongName(id))
    && (forall id :: id in s.metas ==> s.metas[id].checksum == hash(s.wasms[id]) && s.metas[id].size == |s.wasms[id]|)
  }

  /** With every file named after its function, any reading order rebuilds the same. */
  lemma ReloadIsDisk(metas: map<string, Meta>, installed: map<string, Meta>)
    requires forall id :: id in metas ==> metas[id].id == id
    requires IsReload(metas, installed)
    ensures installed == metas
  {
    forall id | id in installed ensures id in metas && installed[id] == metas[id] {
      var file :| file in metas && metas[file].id == id && installed[id] == metas[file];
    }
    forall id | id in metas ensures id in installed {
      assert metas[id].id in installed;
    }
  }

  lemma NextKeepsInv(hash: Bytes -> string, s: State, step: Step, t: State)
    requires Inv(hash, s) && Next(hash, s, step, t)
    ensures Inv(hash, t)
    ensures step.Restart? ==> t == s
  {
    if step.Restart? {
      ReloadIsDisk(s.metas, t.installed);
    }
  }

  lemma {:induction false} RunKeepsInv(hash: Bytes -> string, states: seq<State>, steps: seq<Step>, i: nat)
    requires Run(hash, states, steps) && i <= |steps|
    ensures Inv(hash, states[i])
    decreases i
  {
    if i > 0 {
      RunKeepsInv(hash, states, steps, i - 1);
      NextKeepsInv(hash, states[i - 1], steps[i - 1], states[i]);
    }
  }

  /** After any run the registry is what a restart would rebuild, in whatever order the
      files are read; every stored checksum is the hash of the stored bytes. */
  lemma RegistryMatchesDisk(hash: Bytes -> string, states: seq<State>, steps: seq<Step>, rebuilt: map<string, Meta>)
    requires Run(hash, states, steps) && IsReload(states[|steps|].metas, rebuilt)
    ensures var s := states[|steps|];
            && rebuilt == s.installed && s.installed.Keys <= s.wasms.Keys
            && forall id :: id in s.installed ==> s.installed[id].checksum == hash(s.wasms[id])
  {
    RunKeepsInv(hash, states, steps, |steps|);
    ReloadIsDisk(states[|steps|].metas, rebuilt);
  }

  /** The request was allowed, its artifact was read, and the checksum it expected, if it
      expected one, is that of the artifact. */
  predicate Fetches(hash: Bytes -> string, r: InstallRequest, bytes: Bytes) {
    r.uri != "" && r.fetch == Fetched(bytes) && (r.expected == "" || r.expected == hash(bytes))
  }

  /** The k-th step installed the function as it is described, from these bytes. */
  predicate InstalledBy(hash: Bytes -> string, step: Step, id: string, m: Meta, bytes: Bytes) {
    && step.Install? && step.id == id && Fetches(hash, step.request, bytes)
    && m.id == id && m.config == step.request.config && m.uri == step.request.uri && m.installedAt == step.now
    && m.checksum == hash(bytes) && m.size == |bytes|
  }

  /** In every reachable state each function and its stored bytes come from one installation,
      whose checksum held if it gave one: nothing that fails its checksum is ever stored
      under a listed function. */
  lemma {:induction false} OnlyVerifiedIsInstalled(hash: Bytes -> string, states: seq<State>, steps: seq<Step>,
      id: string, n: nat)
    requires Run(hash, states, steps) && n <= |steps| && id in states[n].installed
    ensures id in states[n].wasms
    ensures exists k :: 0 <= k < n && InstalledBy(hash, steps[k], id, states[n].installed[id], states[n].wasms[id])
    decreases n
  {
    if n > 0 {
      RunKeepsInv(hash, states, steps, n - 1);
      RunKeepsInv(hash, states, steps, n);
      var s, t, step := states[n - 1], states[n], steps[n - 1];
      NextKeepsInv(hash, s, step, t);
      if id in s.installed {
        OnlyVerifiedIsInstalled(hash, states, steps, id, n - 1);
        var k :| 0 <= k < n - 1 && InstalledBy(hash, steps[k], id, s.installed[id], s.wasms[id]);
        StepKeepsInstalled(hash, s, step, t, id, steps[k]);
        assert InstalledBy(hash, steps[k], id, t.installed[id], t.wasms[id])
            || InstalledBy(hash, step, id, t.installed[id], t.wasms[id]);
      } else {
        assert InstalledBy(hash, step, id, t.installed[id], t.wasms[id]);
      }
    }
  }

  lemma StepKeepsInstalled(hash: Bytes -> string, s: State, step: Step, t: State, id: string, origin: Step)
    requires Inv(hash, s) && Inv(hash, t) && Next(hash, s, step, t) && id in s.installed && id in t.installed
    requires id in s.wasms && InstalledBy(hash, origin, id, s.installed[id], s.wasms[id])
    ensures id in t.wasms
    ensures InstalledBy(hash, origin, id, t.installed[id], t.wasms[id]) || InstalledBy(hash, step, id, t.installed[id],
        t.wasms[id])
  {
    NextKeepsInv(hash, s, step, t);
  }

  /** An installation succeeds exactly when its artifact is fetched with the checksum it
      expects and both file names fit; then the function is listed as new. */
  lemma InstallSucceedsIff(hash: Bytes -> string, s: State, id: string, r: InstallRequest, now: int, t: State)
    requires Inv(hash, s) && Next(hash, s, Install(id, r, now), t)
    ensures (exists bytes :: Fetches(hash, r, bytes) && '/' !in id && NameBytes(id) <= 245) <==>
              && id in t.installed && r.fetch.Fetched? && id in t.wasms && t.wasms[id] == r.fetch.bytes
              && InstalledBy(hash, Install(id, r, now), id, t.installed[id], r.fetch.bytes)
              && t.installed[id].invocations == 0 && t.installed[id].lastInvokedAt == None
              && Succeeds(hash, s, Install(id, r, now))
    ensures r.fetch.Fetched? && !Fetches(hash, r, r.fetch.bytes) ==> t == s
  {
    if r.fetch.Fetched? {
      assert Fetches(hash, r, r.fetch.bytes)
        <==> r.uri != "" && (r.expected == "" || r.expected == hash(r.fetch.bytes));
    }
  }

  /** An id of 246 to 250 bytes leaves its artifact and is not listed; a longer one, or one
      with a path separator, leaves nothing. */
  lemma LongNameLeavesOrphan(hash: Bytes -> string, s: State, id: string, r: InstallRequest, now: int, t: State,
      bytes: Bytes)
    requires Inv(hash, s) && Next(hash, s, Install(id, r, now), t) && Fetches(hash, r, bytes)
    requires '/' in id || NameBytes(id) > 245
    ensures id !in t.installed && t.installed == s.installed
    ensures t.wasms == if '/' !in id && NameBytes(id) <= 250 then s.wasms[id := bytes] else s.wasms
  {}

  /** Every step is possible in every state, and leads to one state only. */
  lemma StepsArePossible(hash: Bytes -> string, s: State, step: Step)
    requires Inv(hash, s)
    ensures exists t :: Next(hash, s, step, t)
    ensures forall t, u :: Next(hash, s, step, t) && Next(hash, s, step, u) ==> t == u
  {
    var t := After(hash, s, step);
    if step.Restart? {
      assert IsReload(s.metas, s.metas);
    }
    assert Next(hash, s, step, t);
    forall t, u | Next(hash, s, step, t) && Next(hash, s, step, u) ensures t == u {
      if step.Restart? {
        ReloadIsDisk(s.metas, t.installed);
        ReloadIsDisk(s.metas, u.installed);
      }
    }
  }

  function After(hash: Bytes -> string, s: State, step: Step): State {
    match step
    case Install(id, r, now) =>
      if LeavesArtifact(hash, id, r) then s.(wasms := s.wasms[id := r.fetch.bytes])
      else if InstallError(hash, id, r).Some? then s
      else
        var m := NewMeta(hash, id, r, now);
        State(s.installed[id := m], s.wasms[id := r.fetch.bytes], s.metas[id := m])
    case Invoke(id, result, now) =>
      if InvokeError(s, id, result).Some? then s
      else
        var m := Invoked(s.installed[id], result.value, now);
        s.(installed := s.installed[id := m], metas := s.metas[id := m])
    case Remove(id) => if id in s.installed then State(s.installed - {id}, s.wasms - {id}, s.metas - {id}) else s
    case Restart => s.(installed := s.metas)
  }

  /** A removal leaves nothing of a listed function, and everything else as it is. */
  lemma RemovalIsComplete(hash: Bytes -> string, s: State, id: string, t: State)
    requires Inv(hash, s) && Next(hash, s, Remove(id), t)
    ensures id !in t.installed && id !in t.metas && (id in s.installed ==> id !in t.wasms)
    ensures forall other :: other != id ==>
              && (other in t.installed <==> other in s.installed) && (other in t.wasms <==> other in s.wasms)
              && (other in s.installed ==> t.installed[other] == s.installed[other])
              && (other in s.wasms ==> t.wasms[other] == s.wasms[other])
    ensures id !in s.installed ==> t == s
  {}

  function NoRestarts(steps: seq<Step>): seq<Step> {
    if steps == [] then []
    else NoRestarts(steps[..|steps| - 1]) + if steps[|steps| - 1].Restart? then [] else [steps[|steps| - 1]]
  }

  /** Two runs of the same steps, the second without the restarts, end in one state. */
  lemma {:induction false} RestartsAreInvisible(hash: Bytes -> string, states: seq<State>, steps: seq<Step>,
      others: seq<State>)
    requires Run(hash, states, steps) && Run(hash, others, NoRestarts(steps))
    ensures others[|others| - 1] == states[|steps|]
    decreases |steps|
  {
    if steps != [] {
      var n := |steps| - 1;
      RunKeepsInv(hash, states, steps, n);
      NextKeepsInv(hash, states[n], steps[n], states[n + 1]);
      RunPrefix(hash, states, steps, n);
      if steps[n].Restart? {
        RestartsAreInvisible(hash, states[..n + 1], steps[..n], others);
      } else {
        var kept := NoRestarts(steps[..n]);
        var m := |kept|;
        RunPrefix(hash, others, NoRestarts(steps), m);
        assert NoRestarts(steps)[..m] == kept && NoRestarts(steps)[m] == steps[n];
        RestartsAreInvisible(hash, states[..n + 1], steps[..n], others[..m + 1]);
        NextIsUnique(hash, states[n], steps[n], states[n + 1], others[m + 1]);
      }
    }
  }

  lemma RunPrefix(hash: Bytes -> string, states: seq<State>, steps: seq<Step>, n: nat)
    requires Run(hash, states, steps) && n <= |steps|
    ensures Run(hash, states[..n + 1], steps[..n])
  {
    forall i | 0 <= i < n ensures Next(hash, states[..n + 1][i], steps[..n][i], states[..n + 1][i + 1]) {
      assert Next(hash, states[i], steps[i], states[i + 1]);
    }
  }

  lemma NextIsUnique(hash: Bytes -> string, s: State, step: Step, t: State, u: State)
    requires !step.Restart? && Next(hash, s, step, t) && Next(hash, s, step, u)
    ensures t == u
  {}

  /** An artifact without metadata is exactly what an installation leaves whose id is too
      long for the metadata's name only. Nothing lists it and nothing removes it. */
  lemma {:induction false} OrphansAreLongNames(hash: Bytes -> string, states: seq<State>, steps: seq<Step>, id: string,
      n: nat)
    requires Run(hash, states, steps) && n <= |steps|
    ensures id in states[n].wasms && id !in states[n].installed
            <==> exists k :: 0 <= k < n && Reaches(hash, steps[k], id)
    decreases n
  {
    if n > 0 {
      OrphansAreLongNames(hash, states, steps, id, n - 1);
      RunKeepsInv(hash, states, steps, n - 1);
      RunKeepsInv(hash, states, steps, n);
      OrphanStep(hash, states[n - 1], steps[n - 1], states[n], id);
    }
  }

  /** An installation of the id that writes the artifact and then fails. */
  predicate Reaches(hash: Bytes -> string, step: Step, id: string) {
    step.Install? && step.id == id && LeavesArtifact(hash, id, step.request)
  }

  ghost predicate Orphan(s: State, id: string) {
    id in s.wasms && id !in s.installed
  }

  lemma OrphanStep(hash: Bytes -> string, s: State, step: Step, t: State, id: string)
    requires Inv(hash, s) && Inv(hash, t) && Next(hash, s, step, t)
    ensures Orphan(t, id) <==> Orphan(s, id) || Reaches(hash, step, id)
  {
    NextKeepsInv(hash, s, step, t);
    assert Orphan(s, id) ==> id !in s.metas;
  }

  /** The invokes of a function that completed since its last installation. */
  ghost function Completed(hash: Bytes -> string, states: seq<State>, steps: seq<Step>, id: string, i: nat): nat
    requires |states| == |steps| + 1 && i <= |steps|
  {
    if i == 0 then 0
    else
      var step, before := steps[i - 1], Completed(hash, states, steps, id, i - 1);
      if step.Restart? || !Succeeds(hash, states[i - 1], step) || step.id != id then before
      else if step.Invoke? then before + 1
      else 0
  }

  /** Each invocation count is the number of completed invokes since the last install,
      restarts or not. */
  lemma {:induction false} CountsAreExact(hash: Bytes -> string, states: seq<State>, steps: seq<Step>, id: string,
      i: nat)
    requires Run(hash, states, steps) && i <= |steps| && id in states[i].installed
    ensures states[i].installed[id].invocations == Completed(hash, states, steps, id, i)
    decreases i
  {
    if i > 0 {
      RunKeepsInv(hash, states, steps, i - 1);
      NextKeepsInv(hash, states[i - 1], steps[i - 1], states[i]);
      if id in states[i - 1].installed {
        CountsAreExact(hash, states, steps, id, i - 1);
      }
    }
  }

  /** The last completed invocation since the last installation: its time and its result. */
  ghost function LastInvoked(hash: Bytes -> string, states: seq<State>, steps: seq<Step>, id: string,
      i: nat): Option<(int, Result)>
    requires |states| == |steps| + 1 && i <= |steps|
  {
    if i == 0 then None
    else
      var step, before := steps[i - 1], LastInvoked(hash, states, steps, id, i - 1);
      if step.Restart? || !Succeeds(hash, states[i - 1], step) || step.id != id then before
      else if step.Invoke? then Some((step.now, step.result.value))
      else None
  }

  /** A function shows the time of its last completed invocation, and its error output if
      and only if it ended with another code than 0. */
  lemma {:induction false} LastInvocationIsShown(hash: Bytes -> string, states: seq<State>, steps: seq<Step>,
      id: string, i: nat)
    requires Run(hash, states, steps) && i <= |steps| && id in states[i].installed
    ensures var m, last := states[i].installed[id], LastInvoked(hash, states, steps, id, i);
            && m.lastInvokedAt == (if last.Some? then Some(last.value.0) else None)
            && m.lastError == (if last.Some? && last.value.1.exitCode != 0 then Some(last.value.1.stderr) else None)
    decreases i
  {
    if i > 0 {
      RunKeepsInv(hash, states, steps, i - 1);
      NextKeepsInv(hash, states[i - 1], steps[i - 1], states[i]);
      if id in states[i - 1].installed {
        LastInvocationIsShown(hash, states, steps, id, i - 1);
      }
    }
  }

  /** In every reachable state an invocation completes if and only if the function is
      listed and its execution ends; the artifact is never missing. */
  lemma InvocationCompletesIff(hash: Bytes -> string, states: seq<State>, steps: seq<Step>, id: string,
      result: Option<Result>)
    requires Run(hash, states, steps)
    ensures var s := states[|steps|];
            && (InvokeError(s, id, result) == None <==> id in s.installed && result.Some?)
            && (InvokeError(s, id, result) == Some(404) <==> id !in s.installed)
            && (InvokeError(s, id, result) == Some(500) <==> id in s.installed && result.None?)
  {
    RunKeepsInv(hash, states, steps, |steps|);
  }

  /** What a refused installation says. */
  lemma RefusalsAreExplained(hash: Bytes -> string, id: string, r: InstallRequest)
    ensures InstallError(hash, id, r) == Some(400) <==> r.uri == "" || r.fetch == BadScheme
    ensures InstallError(hash, id, r) == Some(404) <==> r.uri != "" && r.fetch == FileMissing
    ensures InstallError(hash, id, r) == Some(502) <==> r.uri != "" && r.fetch == DownloadFailed
    ensures InstallError(hash, id, r) == Some(422)
            <==> r.uri != "" && r.fetch.Fetched? && r.expected != "" && r.expected != hash(r.fetch.bytes)
    ensures InstallError(hash, id, r) in {None, Some(400), Some(404), Some(422), Some(500), Some(502)}
  {}

  /** What one to four bytes of UTF-8 can hold. */
  const CAPACITY: seq<int> := [0x80, 0x800, 0x1_0000, 0x20_0000]

  /** A character takes the least number of bytes that can hold it. */
  lemma WidthIsLeast(c: char)
    ensures 1 <= Width(c) <= 4 && (c as int) < CAPACITY[Width(c) - 1]
    ensures Width(c) > 1 ==> CAPACITY[Width(c) - 2] <= c as int
  {}

  lemma {:induction false} AsciiNames(id: string)
    requires forall c :: c in id ==> c as int < 0x80
    ensures NameBytes(id) == |id|
  {
    if id != "" {
      assert id[0] in id && forall c :: c in id[1..] ==> c in id;
      AsciiNames(id[1..]);
    }
  }

  // ---------------------------------------------------------------------------
  // The daemon
  // ---------------------------------------------------------------------------

  class Daemon {
    const hash: Bytes -> string
    var installed: map<string, Meta>
    var wasms: map<string, Bytes>
    var metas: map<string, Meta>

    ghost function S(): State
      reads this
    {
      State(installed, wasms, metas)
    }

    constructor (hash: Bytes -> string)
      ensures this.hash == hash && S() == INIT
    {
      this.hash := hash;
      installed, wasms, metas := map[], map[], map[];
    }

    method InstallFunction(id: string, r: InstallRequest, now: int) returns (error: Option<nat>)
      modifies this
      ensures Next(hash, old(S()), Install(id, r, now), S()) && error == InstallError(hash, id, r)
    {
      if r.uri == "" {
        return Some(400);
      }
      match r.fetch {
        case BadScheme => return Some(400);
        case FileMissing => return Some(404);
        case DownloadFailed => return Some(502);
        case Fetched(bytes) =>
          var actual := hash(bytes);
          if r.expected != "" && actual != r.expected {
            return Some(422);
          }
          if !Writable(id, WASM_SUFFIX) {
            return Some(500);
          }
          wasms := wasms[id := bytes];
          if !Writable(id, META_SUFFIX) {
            return Some(500);
          }
          var meta := Meta(id, r.config, r.uri, actual, |bytes|, now, None, None, 0);
          metas := metas[id := meta];
          installed := installed[id := meta];
          return None;
      }
    }

    method InvokeFunction(id: string, result: Option<Result>, now: int) returns (error: Option<nat>)
      modifies this
      ensures Next(hash, old(S()), Invoke(id, result, now), S()) && error == InvokeError(old(S()), id, result)
    {
      if id !in installed {
        return Some(404);
      }
      if id !in wasms {
        return Some(409);
      }
      if result.None? {
        return Some(500);
      }
      var fn := installed[id];
      fn := fn.(invocations := fn.invocations + 1, lastInvokedAt := Some(now));
      if result.value.exitCode != 0 {
        fn := fn.(lastError := Some(result.value.stderr));
      } else {
        fn := fn.(lastError := None);
      }
      installed := installed[id := fn];
      metas := metas[id := fn];
      return None;
    }

    method RemoveFunction(id: string) returns (error: Option<nat>)
      modifies this
      ensures Next(hash, old(S()), Remove(id), S()) && error == if id in old(installed) then None else Some(404)
    {
      if id !in installed {
        return Some(404);
      }
      wasms := wasms - {id};
      metas := metas - {id};
      installed := installed - {id};
      return None;
    }

    /** The process starts with an empty registry and reads the files in some order. */
    method RestartProcess()
      modifies this`installed
      ensures Next(hash, old(S()), Restart, S())
    {
      installed := map[];
      var files := metas.Keys;
      while files != {}
        invariant files <= metas.Keys
        invariant forall file :: file in metas && file !in files ==> metas[file].id in installed
        invariant forall id :: id in installed ==>
                    exists file :: file in metas && metas[file].id == id && installed[id] == metas[file]
        decreases |files|
      {
        var file :| file in files;
        files := files - {file};
        installed := installed[metas[file].id := metas[file]];
      }
    }
  }
}
