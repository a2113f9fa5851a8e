/**
 * Docker as the App-update job uses it: named containers, of which some mount the writable Data
 * Root. A command may fail without effect, fail after taking effect, or raise; a container may exit
 * by itself at any time.
 */
module UpdateContainers {
  import opened Common

  datatype App = App(id: nat, image: string, writer: bool)

  datatype Containers = Containers(names: map<string, App>, running: set<nat>)

  function Writers(c: Containers): set<nat> {
    set n <- c.names | c.names[n].writer && c.names[n].id in c.running :: c.names[n].id
  }

  predicate Distinct(names: map<string, App>) {
    forall a, b :: a in names && b in names && names[a].id == names[b].id ==> a == b
  }

  predicate Alone(ids: set<nat>) {
    forall a, b :: a in ids && b in ids ==> a == b
  }

  /** No writer beside those that were there from the start, or a single one. */
  predicate Exclusive(start: Containers, c: Containers) {
    Writers(c) <= Writers(start) || Alone(Writers(c))
  }

  datatype Command =
    | Stop(name: string)
    | Rename(name: string, to: string)
    | Start(name: string)
    | Run(name: string, app: App)
  {
    /** Commands after which a container may be running that was not. */
    predicate Launches() { Start? || Run? }
  }

  predicate Doable(names: map<string, App>, cmd: Command) {
    match cmd
    case Stop(n) => n in names
    case Start(n) => n in names
    case Rename(n, to) => n in names && to !in names
    case Run(n, app) => n !in names
  }

  function NamesAfter(names: map<string, App>, cmd: Command): map<string, App>
    requires Doable(names, cmd)
  {
    match cmd
    case Stop(_) => names
    case Start(_) => names
    case Rename(n, to) => (names - {n})[to := names[n]]
    case Run(n, app) => names[n := app]
  }

  function Target(names: map<string, App>, cmd: Command): nat
    requires Doable(names, cmd)
  {
    if cmd.Run? then cmd.app.id else names[cmd.name].id
  }

  datatype Exit = Done | Nonzero | Raised

  /** One command with its exit: success means it took effect, failure leaves that open. */
  predicate Possible(c: Containers, cmd: Command, exit: Exit, c': Containers) {
    && (exit.Done? ==> Doable(c.names, cmd))
    && (c'.names == c.names || (Doable(c.names, cmd) && c'.names == NamesAfter(c.names, cmd)))
    && (exit.Done? ==> c'.names == NamesAfter(c.names, cmd))
    && (if cmd.Launches() && Doable(c.names, cmd) then c'.running <= c.running + {Target(c.names, cmd)}
        else c'.running <= c.running)
    && (exit.Done? && cmd.Stop? ==> Target(c.names, cmd) !in c'.running)
    && (exit.Done? && cmd.Start? ==> Target(c.names, cmd) in c'.running)
  }

  predicate FreshRun(names: map<string, App>, cmd: Command) {
    cmd.Run? ==> forall n <- names :: names[n].id != cmd.app.id
  }

  lemma StaysDistinct(c: Containers, cmd: Command, exit: Exit, c': Containers)
    requires Distinct(c.names) && FreshRun(c.names, cmd) && Possible(c, cmd, exit, c')
    ensures Distinct(c'.names)
  {
  }

  lemma StopAndRenameShrink(c: Containers, cmd: Command, exit: Exit, c': Containers)
    requires Possible(c, cmd, exit, c') && !cmd.Launches()
    ensures Writers(c') <= Writers(c)
    ensures cmd.Stop? && exit.Done? ==> c.names[cmd.name].id !in Writers(c')
  {
  }

  lemma LaunchStaysAlone(c: Containers, cmd: Command, exit: Exit, c': Containers)
    requires Possible(c, cmd, exit, c') && cmd.Launches() && Writers(c) == {}
    ensures Alone(Writers(c'))
  {
    forall w <- Writers(c') ensures Doable(c.names, cmd) && w == Target(c.names, cmd) {
      var n :| n in c'.names && c'.names[n].writer && c'.names[n].id == w && w in c'.running;
      assert w !in Writers(c);
    }
  }

  lemma ExitsShrink(c: Containers, running: set<nat>)
    requires running <= c.running
    ensures Writers(c.(running := running)) <= Writers(c)
  {
  }

  class Docker {
    var containers: Containers
    ghost var history: seq<Containers>
    ghost var start: Containers
    /** The states in which a container was launched. */
    ghost var launchedIn: seq<Containers>

    ghost predicate Valid()
      reads this
    {
      && |history| > 0 && history[|history| - 1] == containers && Distinct(containers.names)
      && (forall i | 0 <= i < |history| :: Exclusive(start, history[i]))
      && (forall i | 0 <= i < |launchedIn| :: Writers(launchedIn[i]) == {})
    }

    constructor (c: Containers)
      requires Distinct(c.names)
      ensures Valid() && containers == c && start == c
    {
      containers, history, start, launchedIn := c, [c], c, [];
    }

    /** Some containers exit by themselves. */
    method Wait()
      requires Valid()
      modifies this
      ensures Valid() && start == old(start) && old(history) <= history && launchedIn == old(launchedIn)
      ensures containers.names == old(containers).names && containers.running <= old(containers).running
      ensures Writers(containers) <= Writers(old(containers))
    {
      var gone: set<nat> := *;
      ExitsShrink(containers, containers.running - gone);
      containers := containers.(running := containers.running - gone);
      history := history + [containers];
    }

    /** Runs one command; a launch is only ever issued while nobody writes. */
    method Exec(cmd: Command) returns (exit: Exit)
      requires Valid() && FreshRun(containers.names, cmd) && (cmd.Launches() ==> Writers(containers) == {})
      modifies this
      ensures Valid() && start == old(start) && old(history) <= history
      ensures Possible(old(containers), cmd, exit, containers)
      ensures !cmd.Launches() ==> Writers(containers) <= Writers(old(containers))
    {
      if cmd.Launches() { launchedIn := launchedIn + [containers]; }
      var outcome: Exit, next: Containers := *, *;
      if !Possible(containers, cmd, outcome, next) {
        outcome, next := Nonzero, containers;
      }
      StaysDistinct(containers, cmd, outcome, next);
      if cmd.Launches() {
        LaunchStaysAlone(containers, cmd, outcome, next);
      } else {
        StopAndRenameShrink(containers, cmd, outcome, next);
      }
      containers, history := next, history + [next];
      exit := outcome;
    }

    /** The running containers that mount the writable Data Root, each inspected in turn. */
    method ActiveUsers() returns (users: Option<set<string>>)
      requires Valid()
      modifies this
      ensures Valid() && start == old(start) && old(history) <= history && launchedIn == old(launchedIn)
      ensures containers.names == old(containers).names && Writers(containers) <= Writers(old(containers))
      ensures users.Some? ==> users.value <= containers.names.Keys
      ensures users.Some? ==> Writers(containers) <= set n <- users.value :: containers.names[n].id
    {
      var listed := *;
      if !listed { return None; }
      var found: set<string> := {};
      var pending := set n <- containers.names | containers.names[n].id in containers.running;
      while pending != {}
        invariant Valid() && start == old(start) && old(history) <= history && launchedIn == old(launchedIn)
        invariant containers.names == old(containers).names && Writers(containers) <= Writers(old(containers))
        invariant pending + found <= containers.names.Keys
        invariant forall n <- containers.names ::
                    containers.names[n].writer && containers.names[n].id in containers.running ==> n in pending + found
        decreases pending
      {
        var n :| n in pending;
        Wait();
        var inspected := *;
        if !inspected { return None; }
        if containers.names[n].writer { found := found + {n}; }
        pending := pending - {n};
      }
      return Some(found);
    }

    /** An id no container has. */
    method NewId() returns (id: nat)
      ensures forall n <- containers.names :: containers.names[n].id != id
    {
      id := 0;
      var rest := containers.names.Keys;
      while rest != {}
        invariant rest <= containers.names.Keys
        invariant forall n <- containers.names.Keys - rest :: containers.names[n].id < id
      {
        var n :| n in rest;
        if id <= containers.names[n].id { id := containers.names[n].id + 1; }
        rest := rest - {n};
      }
    }
  }
}
