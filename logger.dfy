/** The front-end logger (src/lib/logger.ts): only errors reach the
    console, prefixed with the level and the logger's tag. */
module Logger {
  import opened Common

  /** A logger; its tag is the one given to `createLogger`. */
  datatype Logger = Logger(tagName: Option<string>)

  /** The root logger. */
  const Root := Logger(None)

  /** An entry of a console line: a text the logger adds or an argument the
      caller passed. */
  datatype LogPart<A> = Label(text: string) | Arg(value: A)

  /** The logging levels. */
  datatype Level = Debug | Info | Warn | Error

  /** The arguments as console entries. */
  function Args<A>(args: seq<A>): (r: seq<LogPart<A>>)
    ensures |r| == |args|
    ensures forall k :: 0 <= k < |r| ==> r[k] == Arg(args[k])
  {
    if args == [] then [] else [Arg(args[0])] + Args(args[1..])
  }

  /** `[tag]`, or nothing for an untagged logger (an empty tag counts as
      none). */
  function Prefix(l: Logger): string {
    if Truthy(l.tagName) then "[" + l.tagName.value + "]" else ""
  }

  /** `formatArgs`: the level label, the prefix when there is one, then the
      arguments. */
  function FormatArgs<A>(l: Logger, level: string, args: seq<A>): seq<LogPart<A>> {
    var levelTag := "[" + level + "]";
    if Prefix(l) != "" then [Label(levelTag), Label(Prefix(l))] + Args(args) else [Label(levelTag)] + Args(args)
  }

  /** What a call at a level writes to the console: nothing below the
      error level. */
  function Emit<A>(l: Logger, level: Level, args: seq<A>): seq<LogPart<A>> {
    if level == Error then FormatArgs(l, "ERROR", args) else []
  }

  /** `tag(name)`: a tagged logger appends `:name` to its tag; an untagged
      one takes `name`. */
  function Tag(l: Logger, name: string): Logger {
    Logger(Some(if Truthy(l.tagName) then l.tagName.value + ":" + name else name))
  }

  /** Debug, info and warn emit nothing; error emits its label, the tag
      when there is one, and the arguments unchanged at the end. */
  lemma EmitShape<A>(l: Logger, level: Level, args: seq<A>)
    ensures level != Error ==> Emit(l, level, args) == []
    ensures level == Error && !Truthy(l.tagName) ==> Emit(l, level, args) == [Label("[ERROR]")] + Args(args)
    ensures level == Error && Truthy(l.tagName) ==>
      Emit(l, level, args) == [Label("[ERROR]"), Label("[" + l.tagName.value + "]")] + Args(args)
  {
    assert "[" + "ERROR" + "]" == "[ERROR]";
    if level == Error && Truthy(l.tagName) {
      assert Prefix(l) != "";
    }
  }

  /** The caller's arguments can be read back from an error line: they are
      its entries after the one or two labels. */
  lemma ErrorKeepsArguments<A>(l: Logger, args: seq<A>)
    ensures var line := Emit(l, Error, args);
      var labels := if Truthy(l.tagName) then 2 else 1;
      |line| == labels + |args| && forall k :: 0 <= k < |args| ==> line[labels + k] == Arg(args[k])
  {
    var line := Emit(l, Error, args);
    var levelTag := "[" + "ERROR" + "]";
    if Truthy(l.tagName) {
      assert Prefix(l) != "";
      assert line == [Label(levelTag), Label(Prefix(l))] + Args(args);
      assert line[2..] == Args(args);
    } else {
      assert line == [Label(levelTag)] + Args(args);
      assert line[1..] == Args(args);
    }
  }

  /** Tags compose with `:`: the root tagged `a` and then `b` logs under
      `[a:b]`, provided `a` is not empty. */
  lemma TagsCompose(a: string, b: string)
    requires a != ""
    ensures Tag(Root, a).tagName == Some(a)
    ensures Tag(Tag(Root, a), b).tagName == Some(a + ":" + b)
    ensures Prefix(Tag(Tag(Root, a), b)) == "[" + a + ":" + b + "]"
  {
    assert a + ":" + b != "";
  }

  /** Tagging the root with the empty name gives a logger whose lines carry
      no tag, and tagging that again behaves like tagging the root. */
  lemma EmptyTagIsUntagged<A>(name: string, args: seq<A>)
    ensures Emit(Tag(Root, ""), Error, args) == Emit(Root, Error, args)
    ensures Tag(Tag(Root, ""), name) == Tag(Root, name)
  {
  }
}
