/**
 * The command line both extraction scripts hand to the converter
 * (`convertion_args`): a fixed prefix naming input and output and asking
 * for a progress bar, then the optional switches in a fixed order, then one
 * `--tag` pair per requested tag.
 *
 * `ReadCommand` reads such a command line back, option by option, and is
 * used to show that the list carries exactly the options it was built from.
 */
module ConverterCommand {
  import opened Python

  const Program: string := "osm2ogr_with_tags"

  /** The six arguments every converter command line starts with. */
  function Prefix(inputFile: string, outputFile: string): seq<string>
  {
    [Program, "-i", inputFile, "-o", outputFile, "-p"]
  }

  /** `name` when the switch is on, nothing otherwise. */
  function Flag(on: bool, name: string): seq<string>
  {
    if on then [name] else []
  }

  /** `name value` when the value is a non-empty string (`if value:`). */
  function ValuePair(value: Option<string>, name: string): seq<string>
  {
    if Truthy(value) then [name, value.value] else []
  }

  /** The tags to pass on: `None` and the empty list both give none. */
  function TagList(tags: Option<seq<string>>): seq<string>
  {
    if tags.Some? then tags.value else []
  }

  /** One `--tag t` pair per tag, in order. */
  function TagArgs(tags: seq<string>): (r: seq<string>)
    ensures |r| == 2 * |tags|
  {
    if tags == [] then [] else ["--tag", tags[0]] + TagArgs(tags[1..])
  }

  lemma {:induction false} TagArgsAppend(tags: seq<string>, t: string)
    ensures TagArgs(tags + [t]) == TagArgs(tags) + ["--tag", t]
  {
    if tags != [] {
      assert (tags + [t])[1..] == tags[1..] + [t];
      TagArgsAppend(tags[1..], t);
    }
  }

  /** The `i`-th tag stands at `2 i + 1`, right after its own `--tag`. */
  lemma {:induction false} TagArgsAt(tags: seq<string>, i: nat)
    requires i < |tags|
    ensures TagArgs(tags)[2 * i] == "--tag" && TagArgs(tags)[2 * i + 1] == tags[i]
  {
    if i > 0 {
      TagArgsAt(tags[1..], i - 1);
    }
  }

  /** What follows the prefix: switches, named values, then the tags. */
  function Switches(ways: bool, length: bool, formatName: Option<string>, layerName: Option<string>,
                    tags: seq<string>): seq<string>
  {
    Flag(ways, "--ways")
      + (Flag(length, "--length")
      + (ValuePair(formatName, "--format_name")
      + (ValuePair(layerName, "--layer_name")
      + TagArgs(tags))))
  }

  /** The converter command line built from the scripts' options. */
  function ConversionCommand(inputFile: string, outputFile: string, ways: bool, length: bool,
                             formatName: Option<string>, layerName: Option<string>,
                             tags: Option<seq<string>>): seq<string>
  {
    Prefix(inputFile, outputFile) + Switches(ways, length, formatName, layerName, TagList(tags))
  }

  /** Regrouping the six parts of a command line. */
  lemma Regroup(prefix: seq<string>, a: seq<string>, b: seq<string>, c: seq<string>, d: seq<string>,
                e: seq<string>)
    ensures ((((prefix + a) + b) + c) + d) + e == prefix + (a + (b + (c + (d + e))))
  {
  }

  lemma AppendPair(front: seq<string>, middle: seq<string>, a: string, b: string)
    ensures (front + middle) + [a] + [b] == front + (middle + [a, b])
  {
  }

  /** `convertion_args`: built by appending, as the scripts do. */
  method ConversionArgs(inputFile: string, outputFile: string, ways: bool, length: bool,
                        formatName: Option<string>, layerName: Option<string>,
                        tags: Option<seq<string>>) returns (args: seq<string>)
    ensures args == ConversionCommand(inputFile, outputFile, ways, length, formatName, layerName, tags)
  {
    args := Prefix(inputFile, outputFile);
    ghost var prefix := args;
    if ways {
      args := args + ["--ways"];
    }
    ghost var afterWays := args;
    assert afterWays == prefix + Flag(ways, "--ways");
    if length {
      args := args + ["--length"];
    }
    ghost var afterLength := args;
    assert afterLength == afterWays + Flag(length, "--length");
    if Truthy(formatName) {
      args := args + ["--format_name"];
      args := args + [formatName.value];
    }
    assert args == afterLength + ValuePair(formatName, "--format_name");
    ghost var afterFormat := args;
    if Truthy(layerName) {
      args := args + ["--layer_name"];
      args := args + [layerName.value];
    }
    assert args == afterFormat + ValuePair(layerName, "--layer_name");
    ghost var afterLayer := args;
    if tags.Some? && tags.value != [] {
      var ts := tags.value;
      for i := 0 to |ts|
        invariant args == afterLayer + TagArgs(ts[..i])
      {
        assert ts[..i + 1] == ts[..i] + [ts[i]];
        TagArgsAppend(ts[..i], ts[i]);
        AppendPair(afterLayer, TagArgs(ts[..i]), "--tag", ts[i]);
        args := args + ["--tag"];
        args := args + [ts[i]];
      }
      assert ts[..|ts|] == ts;
    }
    assert args == afterLayer + TagArgs(TagList(tags));
    Regroup(prefix, Flag(ways, "--ways"), Flag(length, "--length"), ValuePair(formatName, "--format_name"),
            ValuePair(layerName, "--layer_name"), TagArgs(TagList(tags)));
    assert args == prefix + Switches(ways, length, formatName, layerName, TagList(tags));
  }

  /** 1 for a switch that is on, 0 otherwise. */
  function Count(on: bool): nat
  {
    if on then 1 else 0
  }

  /** The number of arguments, option by option. */
  lemma ConversionCommandLength(inputFile: string, outputFile: string, ways: bool, length: bool,
                                formatName: Option<string>, layerName: Option<string>,
                                tags: Option<seq<string>>)
    ensures |ConversionCommand(inputFile, outputFile, ways, length, formatName, layerName, tags)|
      == 6 + Count(ways) + Count(length) + 2 * Count(Truthy(formatName)) + 2 * Count(Truthy(layerName))
         + 2 * |TagList(tags)|
  {
  }

  /** The options a converter command line carries. */
  datatype Invocation = Invocation(
    inputFile: string,
    outputFile: string,
    ways: bool,
    length: bool,
    formatName: Option<string>,
    layerName: Option<string>,
    tags: seq<string>)

  /** Reads the options after the prefix, one at a time, left to right. */
  function ReadOptions(rest: seq<string>, acc: Invocation): Option<Invocation>
    decreases |rest|
  {
    if rest == [] then Some(acc)
    else if rest[0] == "--ways" then ReadOptions(rest[1..], acc.(ways := true))
    else if rest[0] == "--length" then ReadOptions(rest[1..], acc.(length := true))
    else if |rest| < 2 then None
    else if rest[0] == "--format_name" then ReadOptions(rest[2..], acc.(formatName := Some(rest[1])))
    else if rest[0] == "--layer_name" then ReadOptions(rest[2..], acc.(layerName := Some(rest[1])))
    else if rest[0] == "--tag" then ReadOptions(rest[2..], acc.(tags := acc.tags + [rest[1]]))
    else None
  }

  /** Reads a converter command line; `None` if it is not one. */
  function ReadCommand(args: seq<string>): Option<Invocation>
  {
    if |args| >= 6 && args[0] == Program && args[1] == "-i" && args[3] == "-o" && args[5] == "-p"
    then ReadOptions(args[6..], Invocation(args[2], args[4], false, false, None, None, []))
    else None
  }

  /** Reading `--tag` pairs collects the tags, in order and with repeats. */
  lemma {:induction false} ReadTagArgs(tags: seq<string>, acc: Invocation)
    ensures ReadOptions(TagArgs(tags), acc) == Some(acc.(tags := acc.tags + tags))
  {
    if tags != [] {
      var rest := TagArgs(tags[1..]);
      assert TagArgs(tags)[2..] == rest;
      ReadTagArgs(tags[1..], acc.(tags := acc.tags + [tags[0]]));
      assert acc.tags + [tags[0]] + tags[1..] == acc.tags + tags;
    } else {
      assert acc.tags + tags == acc.tags;
    }
  }

  lemma ReadFlag(on: bool, name: string, rest: seq<string>, acc: Invocation, next: Invocation)
    requires name == "--ways" || name == "--length"
    requires next == if !on then acc else if name == "--ways" then acc.(ways := true) else acc.(length := true)
    ensures ReadOptions(Flag(on, name) + rest, acc) == ReadOptions(rest, next)
  {
    if on {
      var args := Flag(on, name) + rest;
      assert args[0] == name && args[1..] == rest;
      if name == "--ways" {
        assert ReadOptions(args, acc) == ReadOptions(rest, acc.(ways := true));
      } else {
        assert name != "--ways";
        assert ReadOptions(args, acc) == ReadOptions(rest, acc.(length := true));
      }
    } else {
      assert Flag(on, name) + rest == rest;
    }
  }

  lemma ReadValuePair(value: Option<string>, name: string, rest: seq<string>, acc: Invocation, next: Invocation)
    requires name == "--format_name" || name == "--layer_name"
    requires next == if !Truthy(value) then acc
      else if name == "--format_name" then acc.(formatName := value) else acc.(layerName := value)
    ensures ReadOptions(ValuePair(value, name) + rest, acc) == ReadOptions(rest, next)
  {
    if Truthy(value) {
      var args := ValuePair(value, name) + rest;
      assert args[0] == name && args[1] == value.value && args[2..] == rest;
      assert name != "--ways" && name != "--length";
      assert name == "--layer_name" ==> name != "--format_name";
    } else {
      assert ValuePair(value, name) + rest == rest;
    }
  }

  /** A value given to the scripts as it reaches the converter. */
  function Given(value: Option<string>): Option<string>
  {
    if Truthy(value) then value else None
  }

  /**
   * The command line is read back as exactly the options it was built
   * from: switches that were on, non-empty format and layer names, and
   * every tag in order.
   */
  lemma ReadConversionCommand(inputFile: string, outputFile: string, ways: bool, length: bool,
                              formatName: Option<string>, layerName: Option<string>,
                              tags: Option<seq<string>>)
    ensures ReadCommand(ConversionCommand(inputFile, outputFile, ways, length, formatName, layerName, tags))
      == Some(Invocation(inputFile, outputFile, ways, length, Given(formatName), Given(layerName), TagList(tags)))
  {
    var cmd := ConversionCommand(inputFile, outputFile, ways, length, formatName, layerName, tags);
    var acc0 := Invocation(inputFile, outputFile, false, false, None, None, []);
    var acc1 := if ways then acc0.(ways := true) else acc0;
    var acc2 := if length then acc1.(length := true) else acc1;
    var acc3 := if Truthy(formatName) then acc2.(formatName := formatName) else acc2;
    var acc4 := if Truthy(layerName) then acc3.(layerName := layerName) else acc3;
    var s4 := TagArgs(TagList(tags));
    var s3 := ValuePair(layerName, "--layer_name") + s4;
    var s2 := ValuePair(formatName, "--format_name") + s3;
    var s1 := Flag(length, "--length") + s2;
    var s0 := Flag(ways, "--ways") + s1;
    assert cmd[6..] == s0;
    assert ReadCommand(cmd) == ReadOptions(s0, acc0);
    assert acc4.tags + TagList(tags) == TagList(tags);
    ReadTagArgs(TagList(tags), acc4);
    ReadValuePair(layerName, "--layer_name", s4, acc3, acc4);
    ReadValuePair(formatName, "--format_name", s3, acc2, acc3);
    ReadFlag(length, "--length", s2, acc1, acc2);
    ReadFlag(ways, "--ways", s1, acc0, acc1);
  }
}
