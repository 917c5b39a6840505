/**
 * `InputDefinitionAdapter::setDefinition`: a Symfony input definition, a
 * list of options and arguments in any order, is split into the host's
 * argument list and option list, each Symfony option being rebuilt as a host
 * option with the same five attributes.
 */
module InputDefinition {
  import opened Wrappers
  import opened Values

  /** A Symfony `InputOption`; `mode` is the bit set read from its private field. */
  datatype SymfonyOption = SymfonyOption(
    name: string, shortcut: Option<string>, mode: int, description: string, default: OptValue)

  /** The host framework's `Option`, built from the same five values. */
  datatype HostOption = HostOption(
    name: string, shortcut: Option<string>, mode: int, description: string, default: OptValue)

  /** One entry of the definition array: an option, or anything else (an argument, kept as it is). */
  datatype Item<A> = OptionItem(option: SymfonyOption) | ArgumentItem(argument: A)

  /** What the host definition is given: `setArguments($arguments)` and `setOptions($options)`. */
  datatype Definition<A> = Definition(arguments: seq<A>, options: seq<HostOption>)

  /** `new Option($name, $shortcut, $mode, $description, $default)`. */
  function Convert(o: SymfonyOption): (h: HostOption)
    ensures h.name == o.name && h.shortcut == o.shortcut && h.mode == o.mode
    ensures h.description == o.description && h.default == o.default
  {
    HostOption(o.name, o.shortcut, o.mode, o.description, o.default)
  }

  /** The way back: a host option read as the Symfony option it came from. */
  function Unconvert(h: HostOption): SymfonyOption {
    SymfonyOption(h.name, h.shortcut, h.mode, h.description, h.default)
  }

  /** The arguments of a definition, in order. */
  function Arguments<A>(items: seq<Item<A>>): seq<A> {
    if items == [] then []
    else
      var rest := Arguments(items[..|items| - 1]);
      match items[|items| - 1]
      case OptionItem(_) => rest
      case ArgumentItem(a) => rest + [a]
  }

  /** The converted options of a definition, in order. */
  function Options<A>(items: seq<Item<A>>): seq<HostOption> {
    if items == [] then []
    else
      var rest := Options(items[..|items| - 1]);
      match items[|items| - 1]
      case OptionItem(o) => rest + [Convert(o)]
      case ArgumentItem(_) => rest
  }

  /** How many items are options. */
  function OptionCount<A>(items: seq<Item<A>>): nat {
    if items == [] then 0
    else OptionCount(items[..|items| - 1]) + (if items[|items| - 1].OptionItem? then 1 else 0)
  }

  /** The partition `setDefinition` computes. */
  function Partition<A>(items: seq<Item<A>>): (d: Definition<A>)
    ensures |d.arguments| + |d.options| == |items|
    ensures |d.options| == OptionCount(items)
  {
    PartitionSizes(items);
    Definition(Arguments(items), Options(items))
  }

  lemma {:induction false} PartitionSizes<A>(items: seq<Item<A>>)
    ensures |Options(items)| == OptionCount(items)
    ensures |Arguments(items)| + |Options(items)| == |items|
  {
    if items != [] {
      PartitionSizes(items[..|items| - 1]);
    }
  }

  /** The tags of a definition: which positions hold options. */
  function Tags<A>(items: seq<Item<A>>): (tags: seq<bool>)
    ensures |tags| == |items|
    ensures forall i :: 0 <= i < |items| ==> tags[i] == items[i].OptionItem?
  {
    seq(|items|, i requires 0 <= i < |items| => items[i].OptionItem?)
  }

  /**
   * Interleaves an argument list and an option list according to the tags:
   * the inverse of the partition, and so a check that nothing was lost,
   * duplicated or reordered.
   */
  function Reassemble<A>(tags: seq<bool>, arguments: seq<A>, options: seq<HostOption>): Option<seq<Item<A>>>
    decreases |tags|
  {
    if tags == [] then
      if arguments == [] && options == [] then Some([]) else None
    else if tags[|tags| - 1] then
      if options == [] then None
      else
        match Reassemble(tags[..|tags| - 1], arguments, options[..|options| - 1])
        case None => None
        case Some(front) => Some(front + [OptionItem(Unconvert(options[|options| - 1]))])
    else
      if arguments == [] then None
      else
        match Reassemble(tags[..|tags| - 1], arguments[..|arguments| - 1], options)
        case None => None
        case Some(front) => Some(front + [ArgumentItem(arguments[|arguments| - 1])])
  }

  /** Putting the two lists back together by the original tags gives back the definition. */
  lemma {:induction false} PartitionReassembles<A>(items: seq<Item<A>>)
    ensures var d := Partition(items);
            Reassemble(Tags(items), d.arguments, d.options) == Some(items)
  {
    if items != [] {
      var front, last := items[..|items| - 1], items[|items| - 1];
      assert items == front + [last];
      PartitionReassembles(front);
      PartitionSnoc(front, last);
      match last
      case OptionItem(o) =>
        assert Unconvert(Convert(o)) == o;
      case ArgumentItem(a) =>
    }
  }

  /** Appending an item to a definition appends its tag, and the item to the list it belongs to. */
  lemma PartitionSnoc<A>(front: seq<Item<A>>, last: Item<A>)
    ensures Tags(front + [last]) == Tags(front) + [last.OptionItem?]
    ensures last.OptionItem? ==> Arguments(front + [last]) == Arguments(front)
    ensures last.OptionItem? ==> Options(front + [last]) == Options(front) + [Convert(last.option)]
    ensures last.ArgumentItem? ==> Arguments(front + [last]) == Arguments(front) + [last.argument]
    ensures last.ArgumentItem? ==> Options(front + [last]) == Options(front)
  {
    assert (front + [last])[..|front|] == front;
  }

  /** Every option item appears, converted, in the option list, and every argument in the argument list. */
  lemma {:induction false} PartitionKeepsEveryItem<A>(items: seq<Item<A>>, i: nat)
    requires i < |items|
    ensures items[i].OptionItem? ==> Convert(items[i].option) in Partition(items).options
    ensures items[i].ArgumentItem? ==> items[i].argument in Partition(items).arguments
  {
    var front := items[..|items| - 1];
    if i < |items| - 1 {
      PartitionKeepsEveryItem(front, i);
      assert front[i] == items[i];
    }
  }

  /** A definition with no options passes its items through unchanged as the argument list. */
  lemma {:induction false} ArgumentsOnly<A>(args: seq<A>)
    ensures Partition(seq(|args|, i requires 0 <= i < |args| => ArgumentItem(args[i]))) == Definition(args, [])
  {
    var items := seq(|args|, i requires 0 <= i < |args| => ArgumentItem(args[i]));
    if args != [] {
      var front := args[..|args| - 1];
      ArgumentsOnly(front);
      assert items[..|items| - 1] == seq(|front|, i requires 0 <= i < |front| => ArgumentItem(front[i]));
    }
  }

  /** The `foreach` of `setDefinition`: one pass appending each item to its list. */
  method SetDefinition<A>(definition: seq<Item<A>>) returns (d: Definition<A>)
    ensures d == Partition(definition)
  {
    var arguments: seq<A> := [];
    var options: seq<HostOption> := [];
    var j := 0;
    while j < |definition|
      invariant j <= |definition|
      invariant arguments == Arguments(definition[..j])
      invariant options == Options(definition[..j])
    {
      assert definition[..j + 1][..j] == definition[..j];
      match definition[j] {
        case OptionItem(item) =>
          var option := HostOption(item.name, item.shortcut, item.mode, item.description, item.default);
          options := options + [option];
        case ArgumentItem(item) =>
          arguments := arguments + [item];
      }
      j := j + 1;
    }
    assert definition[..j] == definition;
    d := Definition(arguments, options);
  }
}
