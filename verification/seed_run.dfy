/**
 * The `db:seed` command (`seed\Run`): which seeders run, in what order, and
 * how each run is bracketed by the adapter's transaction calls. A run is
 * described by the trace of adapter and seeder calls it makes; the parser
 * `Parse` reads a trace back into the seeders run and the error that ended
 * it, and the lemmas show it inverts every trace the command can produce.
 */
module SeedRun {
  import opened Wrappers
  import opened PhpStrings

  /** What calling a seeder's `run` does: there is no such method, it returns, or it throws. */
  datatype RunKind = NoRun | Returns | Throws

  /** A seeder: its `getName()` and how its `run` behaves. */
  datatype Seed = Seed(name: string, run: RunKind)

  /** `getSeeds()`: seeders keyed by name, in the array's order. */
  type Registry = seq<(string, Seed)>

  /** A PHP array cannot repeat a key. */
  predicate UniqueKeys(reg: Registry) {
    forall i, j :: 0 <= i < j < |reg| ==> reg[i].0 != reg[j].0
  }

  /** `array_key_exists($key, $seeds)`. */
  predicate HasKey(reg: Registry, key: string) {
    exists i :: 0 <= i < |reg| && reg[i].0 == key
  }

  /** Every name is a key of the registry. */
  predicate AllKnown(reg: Registry, names: seq<string>) {
    forall i :: 0 <= i < |names| ==> HasKey(reg, names[i])
  }

  /** `$seeds[$key]`: the seeder stored under a key, if any. */
  function Lookup(reg: Registry, key: string): (r: Option<Seed>)
    ensures r.Some? <==> HasKey(reg, key)
    ensures r.Some? ==> exists i :: 0 <= i < |reg| && reg[i] == (key, r.value)
    ensures r.Some? && UniqueKeys(reg) ==> forall i :: 0 <= i < |reg| && reg[i].0 == key ==> reg[i].1 == r.value
  {
    if reg == [] then None
    else if reg[0].0 == key then Some(reg[0].1)
    else
      var r := Lookup(reg[1..], key);
      assert r.Some? ==> exists i :: 0 <= i < |reg| && reg[i] == (key, r.value) by {
        if r.Some? {
          var i :| 0 <= i < |reg[1..]| && reg[1..][i] == (key, r.value);
          assert reg[i + 1] == (key, r.value);
        }
      }
      assert HasKey(reg, key) ==> HasKey(reg[1..], key) by {
        if HasKey(reg, key) {
          var i :| 0 <= i < |reg| && reg[i].0 == key;
          assert i != 0;
          assert reg[1..][i - 1].0 == key;
        }
      }
      r
  }

  /** A call the command makes on the adapter or a seeder, or an exception that ends the command. */
  datatype Event =
    | SetAdapter(seed: string)
    | Begin
    | Run(seed: string)
    | Raised(seed: string)
    | Commit
    | Error(name: string)

  /**
   * `executeSeed($seed)`: the adapter is handed over first; `run` is called
   * only if it exists; a begin/commit pair surrounds it when the adapter has
   * transactions. A `run` that throws skips the commit, and nothing rolls
   * the transaction back: it is left open.
   */
  function ExecuteSeed(s: Seed, tx: bool): (r: seq<Event>)
    ensures |r| >= 1 && r[0] == SetAdapter(s.name)
    ensures tx ==> |r| >= 2 && r[1] == Begin
    ensures (Begin in r) == tx
    ensures (Commit in r) == (tx && s.run != Throws)
    ensures (Run(s.name) in r) == (s.run != NoRun)
    ensures s.run == Throws ==> r[|r| - 1] == Raised(s.name)
    ensures s.run != Throws && tx ==> r[|r| - 1] == Commit
    ensures forall e :: e in r ==> !e.Error? && (e.Raised? ==> s.run == Throws)
  {
    [SetAdapter(s.name)]
      + (if tx then [Begin] else [])
      + (if s.run != NoRun then [Run(s.name)] else [])
      + (if s.run == Throws then [Raised(s.name)] else if tx then [Commit] else [])
  }

  /** The `executeSeed` blocks of several seeders, one after another. */
  function Blocks(seeds: seq<Seed>, tx: bool): seq<Event> {
    if seeds == [] then [] else ExecuteSeed(seeds[0], tx) + Blocks(seeds[1..], tx)
  }

  /** Several seeders executed in turn: the exception of the first that throws ends the run. */
  function Executions(seeds: seq<Seed>, tx: bool): seq<Event> {
    Blocks(UpTo(seeds), tx)
  }

  /** Some seeder of the list throws. */
  predicate Halts(seeds: seq<Seed>) {
    seeds != [] && (seeds[0].run == Throws || Halts(seeds[1..]))
  }

  /** The seeders that get to start: all of them up to and including the first that throws. */
  function UpTo(seeds: seq<Seed>): (r: seq<Seed>)
    ensures |r| <= |seeds| && r == seeds[..|r|]
    ensures Halts(seeds) <==> r != [] && r[|r| - 1].run == Throws
    ensures forall i :: 0 <= i < |r| - 1 ==> r[i].run != Throws
    ensures !Halts(seeds) ==> r == seeds
  {
    if seeds == [] then []
    else if seeds[0].run == Throws then [seeds[0]]
    else [seeds[0]] + UpTo(seeds[1..])
  }

  /** The seeders of a registry, in order. */
  function Seeds(reg: Registry): (r: seq<Seed>)
    ensures |r| == |reg|
    ensures forall i :: 0 <= i < |reg| ==> r[i] == reg[i].1
  {
    if reg == [] then [] else [reg[0].1] + Seeds(reg[1..])
  }

  /** The registry's seeders whose name is a key of `all`, in registry order. */
  function Selected(reg: Registry, all: Registry): (r: seq<Seed>)
    ensures forall s :: s in r <==> s in Seeds(reg) && HasKey(all, s.name)
    ensures |r| <= |reg|
  {
    if reg == [] then []
    else
      var rest := Selected(reg[1..], all);
      assert Seeds(reg) == [reg[0].1] + Seeds(reg[1..]);
      if HasKey(all, reg[0].1.name) then [reg[0].1] + rest else rest
  }

  /** Selection distributes over concatenation: it keeps the registry's order and never repeats or drops a kept seeder. */
  lemma {:induction false} SelectedAppend(a: Registry, b: Registry, all: Registry)
    ensures Selected(a + b, all) == Selected(a, all) + Selected(b, all)
  {
    if a != [] {
      assert (a + b)[0] == a[0];
      assert (a + b)[1..] == a[1..] + b;
      SelectedAppend(a[1..], b, all);
    } else {
      assert a + b == b;
    }
  }

  /** When every seeder's name is a key of `all`, every seeder is selected, in registry order. */
  lemma {:induction false} SelectedAllKeyed(reg: Registry, all: Registry)
    requires forall i :: 0 <= i < |reg| ==> HasKey(all, reg[i].1.name)
    ensures Selected(reg, all) == Seeds(reg)
  {
    if reg != [] {
      assert forall i :: 0 <= i < |reg[1..]| ==> reg[1..][i] == reg[i + 1];
      SelectedAllKeyed(reg[1..], all);
    }
  }

  /**
   * When every seeder is stored under its own name, `seed()` with no name
   * selects the whole registry, once each, in order.
   */
  lemma SelfKeyedSelectsAll(reg: Registry)
    requires forall i :: 0 <= i < |reg| ==> reg[i].1.name == reg[i].0
    ensures Selected(reg, reg) == Seeds(reg)
  {
    forall i | 0 <= i < |reg|
      ensures HasKey(reg, reg[i].1.name)
    {
      assert reg[i].0 == reg[i].1.name;
    }
    SelectedAllKeyed(reg, reg);
  }

  /** `seed()` with no name: every selected seeder, once each, in registry order, until one throws. */
  function SeedAll(reg: Registry, tx: bool): seq<Event> {
    Executions(Selected(reg, reg), tx)
  }

  /**
   * `seed($name)` for each name in turn: a known name runs the seeder stored
   * under it; the first unknown name raises "does not exist", after the
   * seeders named before it have run; a seeder that throws ends the run.
   */
  function SeedNamed(reg: Registry, names: seq<string>, tx: bool): seq<Event> {
    if names == [] then []
    else
      match Lookup(reg, names[0])
      case None => [Error(names[0])]
      case Some(s) => ExecuteSeed(s, tx) + (if s.run == Throws then [] else SeedNamed(reg, names[1..], tx))
  }

  /** `execute()`: all seeders when `--seed` is empty, otherwise each trimmed name in the order given. */
  function Execute(reg: Registry, seedSet: seq<string>, tx: bool): (r: seq<Event>)
    ensures seedSet == [] ==> r == SeedAll(reg, tx)
    ensures seedSet != [] ==> r == SeedNamed(reg, TrimAll(seedSet), tx)
  {
    if seedSet == [] then SeedAll(reg, tx) else SeedNamed(reg, TrimAll(seedSet), tx)
  }

  function TrimAll(names: seq<string>): (r: seq<string>)
    ensures |r| == |names|
    ensures forall i :: 0 <= i < |names| ==> r[i] == Trim(names[i])
  {
    seq(|names|, i requires 0 <= i < |names| => Trim(names[i]))
  }

  /** The seeders stored under the given names, all of which are keys. */
  function LookupAll(reg: Registry, names: seq<string>): (r: seq<Seed>)
    requires AllKnown(reg, names)
    ensures |r| == |names|
    ensures forall i :: 0 <= i < |names| ==> Some(r[i]) == Lookup(reg, names[i])
  {
    if names == [] then [] else [Lookup(reg, names[0]).value] + LookupAll(reg, names[1..])
  }

  /** Reads one `executeSeed` block off the front of a trace: the seeder and the block's length. */
  function ParseExecution(trace: seq<Event>, tx: bool): (r: Option<(Seed, nat)>)
    ensures r.Some? ==> 0 < r.value.1 <= |trace|
  {
    if trace == [] || !trace[0].SetAdapter? then None
    else
      var name := trace[0].seed;
      var i := if tx then 2 else 1;
      if tx && (|trace| < 2 || trace[1] != Begin) then None
      else
        var hasRun := i < |trace| && trace[i] == Run(name);
        var j := if hasRun then i + 1 else i;
        if hasRun && j < |trace| && trace[j] == Raised(name) then Some((Seed(name, Throws), j + 1))
        else if tx && (|trace| <= j || trace[j] != Commit) then None
        else Some((Seed(name, if hasRun then Returns else NoRun), if tx then j + 1 else j))
  }

  /**
   * Reads a whole trace back: the seeders executed, in order, and the unknown
   * name that stopped the run, if one did; a seeder that threw is the last
   * one read. Fails on anything the command cannot produce.
   */
  function Parse(trace: seq<Event>, tx: bool): Option<(seq<Seed>, Option<string>)>
    decreases |trace|
  {
    if trace == [] then Some(([], None))
    else if trace[0].Error? then
      if |trace| == 1 then Some(([], Some(trace[0].name))) else None
    else
      match ParseExecution(trace, tx)
      case None => None
      case Some((s, n)) =>
        if s.run == Throws then
          if n == |trace| then Some(([s], None)) else None
        else
          match Parse(trace[n..], tx)
          case None => None
          case Some((seeds, err)) => Some(([s] + seeds, err))
  }

  /** An `executeSeed` block parses back to its seeder, whatever follows it. */
  lemma ParseExecutionInverse(s: Seed, tx: bool, rest: seq<Event>)
    requires rest == [] || !(rest[0].Run? || rest[0].Raised?)
    ensures ParseExecution(ExecuteSeed(s, tx) + rest, tx) == Some((s, |ExecuteSeed(s, tx)|))
  {
    var block := ExecuteSeed(s, tx);
    var trace := block + rest;
    assert trace[0] == SetAdapter(s.name);
    var i := if tx then 2 else 1;
    if tx {
      assert trace[1] == Begin;
    }
    if s.run != NoRun {
      assert trace[i] == Run(s.name);
      if s.run == Throws {
        assert trace[i + 1] == Raised(s.name);
      } else if tx {
        assert trace[i + 1] == Commit;
      } else if rest != [] {
        assert trace[i + 1] == rest[0];
      }
    } else if tx {
      assert trace[2] == Commit;
    } else if rest != [] {
      assert trace[1] == rest[0];
    }
  }

  /**
   * Consecutive blocks, where only the last seeder may throw, followed by an
   * unknown-name error unless that seeder threw, parse back to the seeders
   * and the error.
   */
  lemma {:induction false} ParseBlocks(seeds: seq<Seed>, tx: bool, err: Option<string>)
    requires forall i :: 0 <= i < |seeds| - 1 ==> seeds[i].run != Throws
    requires seeds != [] && seeds[|seeds| - 1].run == Throws ==> err == None
    ensures Parse(Blocks(seeds, tx) + ErrorTail(err), tx) == Some((seeds, err))
  {
    if seeds != [] {
      if seeds[0].run == Throws {
        ParseSingleThrown(seeds, tx, err);
      } else {
        ParseBlocks(seeds[1..], tx, err);
        ParseBlocksStep(seeds, tx, err);
      }
    }
  }

  /** A list whose first seeder throws is that seeder alone, and its block parses back to it. */
  lemma ParseSingleThrown(seeds: seq<Seed>, tx: bool, err: Option<string>)
    requires seeds != [] && seeds[0].run == Throws
    requires forall i :: 0 <= i < |seeds| - 1 ==> seeds[i].run != Throws
    requires seeds[|seeds| - 1].run == Throws ==> err == None
    ensures Parse(Blocks(seeds, tx) + ErrorTail(err), tx) == Some((seeds, err))
  {
    assert |seeds| == 1 && seeds == [seeds[0]];
    assert Blocks(seeds, tx) + ErrorTail(err) == ExecuteSeed(seeds[0], tx);
    ParseThrown(seeds[0], tx);
  }

  /** One step of `ParseBlocks`: a returning seeder's block in front of parsed blocks. */
  lemma ParseBlocksStep(seeds: seq<Seed>, tx: bool, err: Option<string>)
    requires seeds != [] && seeds[0].run != Throws
    requires Parse(Blocks(seeds[1..], tx) + ErrorTail(err), tx) == Some((seeds[1..], err))
    ensures Parse(Blocks(seeds, tx) + ErrorTail(err), tx) == Some((seeds, err))
  {
    var rest := Blocks(seeds[1..], tx) + ErrorTail(err);
    assert Blocks(seeds, tx) + ErrorTail(err) == ExecuteSeed(seeds[0], tx) + rest;
    StartsWithoutRun(seeds[1..], tx, err);
    ParseBlock(seeds[0], tx, rest);
    assert [seeds[0]] + seeds[1..] == seeds;
  }

  /** The block of a seeder that throws parses back to it alone, with no unknown name. */
  lemma ParseThrown(s: Seed, tx: bool)
    requires s.run == Throws
    ensures Parse(ExecuteSeed(s, tx), tx) == Some(([s], None))
  {
    ParseExecutionInverse(s, tx, []);
    assert ExecuteSeed(s, tx) + [] == ExecuteSeed(s, tx);
  }

  /**
   * The trace of several executions, followed by an unknown-name error
   * unless a seeder threw, parses back to the seeders that started and the
   * error.
   */
  lemma ParseExecutions(seeds: seq<Seed>, tx: bool, err: Option<string>)
    ensures Parse(Executions(seeds, tx) + StopTail(seeds, err), tx) == Some((UpTo(seeds), StopName(seeds, err)))
  {
    ParseBlocks(UpTo(seeds), tx, StopName(seeds, err));
  }

  /** What ends a trace after the executions: the unknown-name error, unless a seeder threw first. */
  function StopTail(seeds: seq<Seed>, err: Option<string>): seq<Event> {
    if Halts(seeds) then [] else ErrorTail(err)
  }

  /** The unknown name reported, unless a seeder threw first. */
  function StopName(seeds: seq<Seed>, err: Option<string>): Option<string> {
    if Halts(seeds) then None else err
  }

  /** Parsing a trace that starts with one returning execution block reads that seeder, then parses the rest. */
  lemma ParseBlock(s: Seed, tx: bool, rest: seq<Event>)
    requires s.run != Throws
    requires rest == [] || !(rest[0].Run? || rest[0].Raised?)
    ensures Parse(ExecuteSeed(s, tx) + rest, tx)
            == match Parse(rest, tx)
               case None => None
               case Some((seeds, err)) => Some(([s] + seeds, err))
  {
    var block := ExecuteSeed(s, tx);
    ParseExecutionInverse(s, tx, rest);
    assert (block + rest)[|block|..] == rest;
  }

  /** A block boundary: what follows a block is another block, the error, or nothing. */
  lemma StartsWithoutRun(seeds: seq<Seed>, tx: bool, err: Option<string>)
    ensures var t := Blocks(seeds, tx) + ErrorTail(err);
            t == [] || t[0].SetAdapter? || t[0].Error?
  {
    if seeds != [] {
      assert (Blocks(seeds, tx) + ErrorTail(err))[0] == ExecuteSeed(seeds[0], tx)[0];
    }
  }

  /** The exception, if any, as the last event of a trace. */
  function ErrorTail(err: Option<string>): seq<Event> {
    match err
    case None => []
    case Some(name) => [Error(name)]
  }

  /**
   * A seeder that throws ends the command: the seeders after it never start,
   * its transaction is begun and never committed or rolled back, and its
   * exception is the last event.
   */
  lemma ThrowStopsRun(seeds: seq<Seed>, k: nat, tx: bool)
    requires k < |seeds| && seeds[k].run == Throws
    requires forall i :: 0 <= i < k ==> seeds[i].run != Throws
    ensures Executions(seeds, tx) == Executions(seeds[..k], tx) + ExecuteSeed(seeds[k], tx)
    ensures UpTo(seeds) == seeds[..k + 1]
    ensures var t := Executions(seeds, tx);
            && t[|t| - 1] == Raised(seeds[k].name)
            && (tx ==> LeftOpen(t))
  {
    ThrowUpTo(seeds, k);
    NoThrowPrefix(seeds, k);
    SliceSnoc(seeds, k);
    StartedBlocks(seeds, seeds[..k], seeds[k], tx);
    ThrownLast(Executions(seeds[..k], tx), seeds[k], tx);
  }

  /** No seeder before `k` throws, so all of them start. */
  lemma NoThrowPrefix(seeds: seq<Seed>, k: nat)
    requires k <= |seeds|
    requires forall i :: 0 <= i < k ==> seeds[i].run != Throws
    ensures UpTo(seeds[..k]) == seeds[..k]
  {
    var front := seeds[..k];
    assert forall i :: 0 <= i < |front| ==> front[i].run != Throws;
    NoThrowUpTo(front);
  }

  lemma SliceSnoc<T>(s: seq<T>, k: nat)
    requires k < |s|
    ensures s[..k + 1] == s[..k] + [s[k]]
  {
  }

  /** When the seeders that start are `front` and then `last`, the trace is `front`'s executions, then `last`'s block. */
  lemma StartedBlocks(seeds: seq<Seed>, front: seq<Seed>, last: Seed, tx: bool)
    requires UpTo(seeds) == front + [last] && UpTo(front) == front
    ensures Executions(seeds, tx) == Executions(front, tx) + ExecuteSeed(last, tx)
  {
    BlocksSnoc(front, last, tx);
  }

  /** After any trace, the block of a seeder that throws ends with its exception and leaves its transaction open. */
  lemma ThrownLast(front: seq<Event>, s: Seed, tx: bool)
    requires s.run == Throws
    ensures var t := front + ExecuteSeed(s, tx);
            && t[|t| - 1] == Raised(s.name)
            && (tx ==> LeftOpen(t))
  {
    var e := ExecuteSeed(s, tx);
    assert (front + e)[|front + e| - 1] == e[|e| - 1];
    if tx {
      OpenAfterBegin(front, e);
    }
  }

  /** The seeders that start are those up to and including the first that throws. */
  lemma {:induction false} ThrowUpTo(seeds: seq<Seed>, k: nat)
    requires k < |seeds| && seeds[k].run == Throws
    requires forall i :: 0 <= i < k ==> seeds[i].run != Throws
    ensures UpTo(seeds) == seeds[..k + 1]
  {
    if k > 0 {
      var tail := seeds[1..];
      assert forall i :: 0 <= i < k - 1 ==> tail[i] == seeds[i + 1];
      ThrowUpTo(tail, k - 1);
      assert seeds[..k + 1] == [seeds[0]] + tail[..k];
    }
  }

  /** When no seeder throws, all of them start. */
  lemma {:induction false} NoThrowUpTo(seeds: seq<Seed>)
    requires forall i :: 0 <= i < |seeds| ==> seeds[i].run != Throws
    ensures UpTo(seeds) == seeds
  {
    if seeds != [] {
      var tail := seeds[1..];
      assert forall i :: 0 <= i < |tail| ==> tail[i] == seeds[i + 1];
      NoThrowUpTo(tail);
      assert [seeds[0]] + tail == seeds;
    }
  }

  /** Appending a seeder appends its block. */
  lemma {:induction false} BlocksSnoc(seeds: seq<Seed>, s: Seed, tx: bool)
    ensures Blocks(seeds + [s], tx) == Blocks(seeds, tx) + ExecuteSeed(s, tx)
  {
    if seeds == [] {
      assert seeds + [s] == [s];
      assert Blocks([s], tx) == ExecuteSeed(s, tx) + [];
    } else {
      assert (seeds + [s])[1..] == seeds[1..] + [s];
      BlocksSnoc(seeds[1..], s, tx);
    }
  }

  /** A transaction is begun and no commit follows it. */
  predicate LeftOpen(t: seq<Event>) {
    exists m :: 0 <= m < |t| && t[m] == Begin && forall p :: m < p < |t| ==> t[p] != Commit
  }

  /** A block that begins but never commits leaves the whole trace open. */
  lemma OpenAfterBegin(front: seq<Event>, block: seq<Event>)
    requires |block| >= 2 && block[1] == Begin && Commit !in block
    ensures LeftOpen(front + block)
  {
    var t := front + block;
    var m := |front| + 1;
    assert t[m] == Begin;
    forall p | m < p < |t|
      ensures t[p] != Commit
    {
      assert t[p] == block[p - |front|];
    }
  }

  /**
   * Without `--seed`, the registry's seeders whose name is a key run once
   * each, in registry order, up to the first one that throws; no name is
   * reported unknown.
   */
  lemma SeedAllRunsSelected(reg: Registry, tx: bool)
    ensures Parse(Execute(reg, [], tx), tx) == Some((UpTo(Selected(reg, reg)), None))
  {
    var seeds := Selected(reg, reg);
    ParseExecutions(seeds, tx, None);
    assert StopTail(seeds, None) == [];
    assert Executions(seeds, tx) + [] == Executions(seeds, tx);
  }

  /** When every name is known, the named seeders run in the order given, repeats included, until one throws. */
  lemma {:induction false} SeedNamedKnown(reg: Registry, names: seq<string>, tx: bool)
    requires AllKnown(reg, names)
    ensures SeedNamed(reg, names, tx) == Executions(LookupAll(reg, names), tx)
  {
    if names != [] {
      var seeds := LookupAll(reg, names);
      var s := Lookup(reg, names[0]).value;
      assert seeds[0] == s;
      if s.run == Throws {
        assert UpTo(seeds) == [s];
        assert Blocks([s], tx) == ExecuteSeed(s, tx) + [];
      } else {
        SeedNamedKnown(reg, names[1..], tx);
        assert seeds[1..] == LookupAll(reg, names[1..]);
        assert seeds == [s] + seeds[1..];
        ExecutionsCons(s, seeds[1..], tx);
      }
    }
  }

  /**
   * When the name at position `k` is the first unknown one, the seeders named
   * before it have run and, unless one of them threw, the run stops with its
   * error.
   */
  lemma {:induction false} SeedNamedStopsAtUnknown(reg: Registry, names: seq<string>, k: nat, tx: bool)
    requires k < |names|
    requires AllKnown(reg, names[..k])
    requires !HasKey(reg, names[k])
    ensures var seeds := LookupAll(reg, names[..k]);
            SeedNamed(reg, names, tx) == Executions(seeds, tx) + StopTail(seeds, Some(names[k]))
  {
    var seeds := LookupAll(reg, names[..k]);
    if k == 0 {
      assert seeds == [];
    } else {
      var s := Lookup(reg, names[0]).value;
      assert seeds[0] == s;
      if s.run == Throws {
        ThrowFirst(seeds, tx, Some(names[k]));
      } else {
        SeedNamedStopsAtUnknown(reg, names[1..], k - 1, tx);
        assert names[1..][..k - 1] == names[..k][1..];
        assert seeds[1..] == LookupAll(reg, names[..k][1..]);
        StopAfterReturn(seeds, tx, Some(names[k]));
      }
    }
  }

  /** When the first seeder throws, its block is the whole trace. */
  lemma ThrowFirst(seeds: seq<Seed>, tx: bool, err: Option<string>)
    requires seeds != [] && seeds[0].run == Throws
    ensures Executions(seeds, tx) + StopTail(seeds, err) == ExecuteSeed(seeds[0], tx)
  {
    assert UpTo(seeds) == [seeds[0]];
    assert Blocks([seeds[0]], tx) == ExecuteSeed(seeds[0], tx) + [];
  }

  /** When the first seeder returns, its block is followed by the rest's trace. */
  lemma StopAfterReturn(seeds: seq<Seed>, tx: bool, err: Option<string>)
    requires seeds != [] && seeds[0].run != Throws
    ensures Executions(seeds, tx) + StopTail(seeds, err)
            == ExecuteSeed(seeds[0], tx) + (Executions(seeds[1..], tx) + StopTail(seeds[1..], err))
  {
    assert seeds == [seeds[0]] + seeds[1..];
    ExecutionsCons(seeds[0], seeds[1..], tx);
  }

  /** A seeder that returns is followed by the executions of the rest, and throws nothing itself. */
  lemma ExecutionsCons(h: Seed, rest: seq<Seed>, tx: bool)
    requires h.run != Throws
    ensures Executions([h] + rest, tx) == ExecuteSeed(h, tx) + Executions(rest, tx)
    ensures Halts([h] + rest) == Halts(rest)
  {
    assert ([h] + rest)[1..] == rest;
    assert UpTo([h] + rest) == [h] + UpTo(rest);
    assert ([h] + UpTo(rest))[1..] == UpTo(rest);
  }

  /**
   * With all `--seed` names known, the trimmed names' seeders run in order
   * up to the first that throws, and no name is reported unknown.
   */
  lemma NamedRunParses(reg: Registry, seedSet: seq<string>, tx: bool)
    requires seedSet != []
    requires AllKnown(reg, TrimAll(seedSet))
    ensures Parse(Execute(reg, seedSet, tx), tx) == Some((UpTo(LookupAll(reg, TrimAll(seedSet))), None))
  {
    var names := TrimAll(seedSet);
    KnownNamesParse(reg, names, tx);
  }

  lemma KnownNamesParse(reg: Registry, names: seq<string>, tx: bool)
    requires AllKnown(reg, names)
    ensures Parse(SeedNamed(reg, names, tx), tx) == Some((UpTo(LookupAll(reg, names)), None))
  {
    var seeds := LookupAll(reg, names);
    SeedNamedKnown(reg, names, tx);
    ParseExecutions(seeds, tx, None);
    assert StopTail(seeds, None) == [];
    assert Executions(seeds, tx) + [] == Executions(seeds, tx);
  }

  /**
   * With an unknown `--seed` name at `k`, the earlier names' seeders have run
   * and, unless one of them threw, the run ends in that name's error.
   */
  lemma UnknownNameParses(reg: Registry, seedSet: seq<string>, k: nat, tx: bool)
    requires k < |seedSet|
    requires AllKnown(reg, TrimAll(seedSet)[..k])
    requires !HasKey(reg, Trim(seedSet[k]))
    ensures var seeds := LookupAll(reg, TrimAll(seedSet)[..k]);
            Parse(Execute(reg, seedSet, tx), tx) == Some((UpTo(seeds), StopName(seeds, Some(Trim(seedSet[k])))))
  {
    var names := TrimAll(seedSet);
    UnknownNameStops(reg, names, k, tx);
    assert Execute(reg, seedSet, tx) == SeedNamed(reg, names, tx);
  }

  lemma UnknownNameStops(reg: Registry, names: seq<string>, k: nat, tx: bool)
    requires k < |names|
    requires AllKnown(reg, names[..k])
    requires !HasKey(reg, names[k])
    ensures var seeds := LookupAll(reg, names[..k]);
            Parse(SeedNamed(reg, names, tx), tx) == Some((UpTo(seeds), StopName(seeds, Some(names[k]))))
  {
    var seeds := LookupAll(reg, names[..k]);
    SeedNamedStopsAtUnknown(reg, names, k, tx);
    ParseExecutions(seeds, tx, Some(names[k]));
  }
}
