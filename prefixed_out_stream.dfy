/**
 * The logging sink's prefixing output stream: text handed to it is split at
 * '\n' and the stream's prefix is written at the start of every line.  Whether
 * a prefix is pending is the carriageReturned bit.  The destination stream is
 * the text written so far; the conversion of a value to text happens before
 * the model starts (a value arrives as its converted text).
 */
module PrefixedOutStreams {
  import opened Wrappers

  /** A piece of the output: the stream's prefix, or text taken from the input. */
  datatype Chunk = Prefix | Text(s: string)

  /** What operator<< is given: a value with its converted text and what streaming it raw writes, or an object with ToString(). */
  datatype Printable = Value(converted: string, raw: string) | WithToString(text: string)

  /** std::string::find(c, from): the first index at or after from holding c, or npos. */
  function FindChar(s: string, c: char, from: nat): (r: Option<nat>)
    ensures r.Some? ==> from <= r.value < |s| && s[r.value] == c
    ensures r.Some? ==> forall j :: from <= j < r.value ==> s[j] != c
    ensures r.None? ==> forall j :: from <= j < |s| ==> s[j] != c
    decreases |s| - from
  {
    if from >= |s| then None
    else if s[from] == c then Some(from)
    else FindChar(s, c, from + 1)
  }

  /**
   * The chunks written for text t that is still to be written, when the
   * carriage-returned bit is cr: a pending prefix goes before any text, and
   * every line of t ends in its own chunk, newline included.
   */
  function Emit(t: string, cr: bool): (r: seq<Chunk>)
    decreases |t|
  {
    if t == [] then []
    else
      (if cr then [Prefix] else []) +
      match FindChar(t, '\n', 0)
      case None => [Text(t)]
      case Some(nl) => [Text(t[..nl + 1])] + Emit(t[nl + 1..], true)
  }

  /** The chunks one BaseLogic call writes (apart from ignoreInput): empty text is forwarded raw after any pending prefix. */
  function Chunks(line: string, raw: string, cr: bool): (r: seq<Chunk>)
    ensures |r| > 0 && (r[0] == Prefix <==> cr)
    ensures line == [] ==> r[|r| - 1] == Text(raw)
  {
    if line == [] then (if cr then [Prefix] else []) + [Text(raw)]
    else
      EmitStartsWithPendingPrefix(line, cr);
      Emit(line, cr)
  }

  /** Empty text writes nothing; other text writes something, beginning with the prefix iff one is pending. */
  lemma EmitStartsWithPendingPrefix(t: string, cr: bool)
    ensures t == [] ==> Emit(t, cr) == []
    ensures t != [] ==> |Emit(t, cr)| > 0 && (Emit(t, cr)[0] == Prefix <==> cr)
  {
  }

  /** The characters the chunks stand for. */
  function Flatten(prefix: string, cs: seq<Chunk>): string
  {
    if cs == [] then []
    else (match cs[0] case Prefix => prefix case Text(s) => s) + Flatten(prefix, cs[1..])
  }

  /** The output with the inserted prefixes taken out again. */
  function Strip(cs: seq<Chunk>): string
  {
    if cs == [] then []
    else (match cs[0] case Prefix => [] case Text(s) => s) + Strip(cs[1..])
  }

  /** The carriage-returned bit after writing t starting from bit cr. */
  function FinalCR(t: string, cr: bool): bool
  {
    if t == [] then cr else t[|t| - 1] == '\n'
  }

  predicate EndsInNewline(s: string)
  {
    |s| > 0 && s[|s| - 1] == '\n'
  }

  class PrefixedOutStream {
    var destination: string
    const prefix: string
    var ignoreInput: bool
    const fatal: bool
    var carriageReturned: bool

    /** The constructor lives in a header that is not part of this model, so every field is a parameter. */
    constructor (destination: string, prefix: string, ignoreInput: bool, fatal: bool, carriageReturned: bool)
      ensures this.destination == destination && this.prefix == prefix
      ensures this.ignoreInput == ignoreInput && this.fatal == fatal
      ensures this.carriageReturned == carriageReturned
    {
      this.destination := destination;
      this.prefix := prefix;
      this.ignoreInput := ignoreInput;
      this.fatal := fatal;
      this.carriageReturned := carriageReturned;
    }

    /** PrefixIfNeeded: write a pending prefix (unless input is ignored) and clear the bit. */
    method PrefixIfNeeded()
      modifies this`destination, this`carriageReturned
      ensures !carriageReturned
      ensures destination == old(destination) + (if old(carriageReturned) && !ignoreInput then prefix else [])
    {
      if carriageReturned {
        if !ignoreInput {
          destination := destination + prefix;
        }
        carriageReturned := false;
      }
    }

    /**
     * BaseLogic(val) for a value whose converted text is line; raw is what
     * streaming the value itself writes.  exits says whether the call ends the
     * process (a fatal stream that wrote a newline).
     */
    method BaseLogic(line: string, raw: string) returns (exits: bool)
      modifies this`destination, this`carriageReturned
      ensures destination == old(destination) + (if ignoreInput then [] else Flatten(prefix, Chunks(line, raw, old(carriageReturned))))
      ensures carriageReturned == FinalCR(line, false)
      ensures exits <==> fatal && !ignoreInput && '\n' in line
    {
      ghost var cr0, ign, pre := carriageReturned, ignoreInput, prefix;
      PrefixIfNeeded();
      if |line| == 0 {
        if !ignoreInput {
          destination := destination + raw;
        }
        FlattenAppend(pre, if cr0 then [Prefix] else [], [Text(raw)]);
        FlattenHead(pre, cr0);
        FlattenText(pre, raw);
        return false;
      }
      ghost var start := old(destination);
      ghost var whole := Pending(ign, pre, line, cr0);
      EmitPendingPrefix(pre, line, cr0);
      if !ign {
        Associate3(start, if cr0 then pre else [], Pending(ign, pre, line, false));
      } else {
        assert destination == start + [];
      }
      assert destination + Pending(ign, pre, line, false) == start + whole;
      var pos, newlined := WriteLines(line);
      assert destination + Pending(ign, pre, line[pos..], carriageReturned) == start + whole;
      WriteRest(line, pos);
      if pos == |line| {
        assert line[pos - 1] == line[|line| - 1];
      } else {
        assert line[|line| - 1] == line[pos..][|line| - 1 - pos];
      }
      assert destination == start + whole;
      assert Chunks(line, raw, cr0) == Emit(line, cr0);
      if pos > 0 {
        assert line[pos - 1] in line;
      }
      exits := fatal && newlined;
    }

    /**
     * The loop of BaseLogic: every complete line of line (what ends in '\n')
     * is written after any pending prefix; pos is where the unfinished rest
     * starts and newlined says whether a newline went out.
     */
    method WriteLines(line: string) returns (pos: nat, newlined: bool)
      requires !carriageReturned
      modifies this`destination, this`carriageReturned
      ensures pos <= |line| && FindChar(line, '\n', pos) == None
      ensures pos > 0 ==> line[pos - 1] == '\n'
      ensures newlined <==> !ignoreInput && pos > 0
      ensures carriageReturned <==> pos > 0
      ensures destination + Pending(ignoreInput, prefix, line[pos..], carriageReturned) ==
        old(destination) + Pending(ignoreInput, prefix, line, false)
    {
      ghost var ign, pre := ignoreInput, prefix;
      ghost var goal := destination + Pending(ign, pre, line, false);
      assert line[0..] == line;
      newlined := false;
      pos := 0;
      var nl := FindChar(line, '\n', pos);
      while nl.Some?
        invariant 0 <= pos <= |line|
        invariant nl == FindChar(line, '\n', pos)
        invariant pos > 0 ==> line[pos - 1] == '\n'
        invariant newlined <==> !ignoreInput && pos > 0
        invariant carriageReturned <==> pos > 0
        invariant ignoreInput == ign
        invariant destination + Pending(ign, pre, line[pos..], carriageReturned) == goal
        decreases |line| - pos
      {
        var at := nl.value;
        WriteLine(line, pos, at, goal);
        newlined := newlined || !ignoreInput;
        pos := at + 1;
        nl := FindChar(line, '\n', pos);
      }
    }

    /** One pass of BaseLogic's loop: the pending prefix, line[pos..at] and its newline. */
    method WriteLine(line: string, pos: nat, at: nat, ghost goal: string)
      requires pos <= |line| && FindChar(line, '\n', pos) == Some(at)
      requires destination + Pending(ignoreInput, prefix, line[pos..], carriageReturned) == goal
      modifies this`destination, this`carriageReturned
      ensures carriageReturned
      ensures destination == old(destination) + Written(ignoreInput, prefix, line, pos, at, old(carriageReturned))
      ensures destination + Pending(ignoreInput, prefix, line[at + 1..], true) == goal
    {
      ghost var d0 := destination;
      ghost var cr := carriageReturned;
      LoopStep(ignoreInput, prefix, line, pos, at, cr, d0, goal);
      PrefixIfNeeded();
      ghost var d1 := destination;
      if !ignoreInput {
        destination := destination + line[pos..at];
        destination := destination + "\n";
        assert destination == d1 + line[pos..at] + "\n";
        Associate(d0, if cr then prefix else [], line[pos..at], "\n");
      } else {
        assert destination == d0 + [];
      }
      carriageReturned := true;
    }

    /** The end of BaseLogic: the text after the last newline, after any pending prefix. */
    method WriteRest(line: string, pos: nat)
      requires pos <= |line| && FindChar(line, '\n', pos) == None
      modifies this`destination, this`carriageReturned
      ensures destination == old(destination) + Pending(ignoreInput, prefix, line[pos..], old(carriageReturned))
      ensures carriageReturned == (old(carriageReturned) && pos == |line|)
    {
      ghost var ign, pre, d0, cr := ignoreInput, prefix, destination, carriageReturned;
      if pos != |line| {
        LastStep(ign, pre, line, pos, cr, d0, d0 + Pending(ign, pre, line[pos..], cr));
        PrefixIfNeeded();
        if !ignoreInput {
          destination := destination + line[pos..];
          Associate3(d0, if cr then pre else [], line[pos..]);
        } else {
          assert destination == d0 + [];
        }
        assert destination == d0 + LastWritten(ign, pre, line, pos, cr);
      } else {
        assert line[pos..] == [];
        assert destination == destination + [];
      }
    }

    /** operator<<: hand the value's text to BaseLogic (an object with ToString() is written as that string). */
    method Write(v: Printable) returns (exits: bool)
      modifies this`destination, this`carriageReturned
      ensures destination == old(destination) + (if ignoreInput then [] else Flatten(prefix, Chunks(TextOf(v), RawOf(v), old(carriageReturned))))
      ensures carriageReturned == FinalCR(TextOf(v), false)
      ensures exits <==> fatal && !ignoreInput && '\n' in TextOf(v)
    {
      match v
      case Value(converted, raw) =>
        exits := BaseLogic(converted, raw);
      case WithToString(text) =>
        exits := BaseLogic(text, text);
    }
  }

  /** What streaming a Printable itself writes when its text is empty. */
  function RawOf(v: Printable): string
  {
    match v
    case Value(_, raw) => raw
    case WithToString(text) => text
  }

  /** The text a Printable stands for. */
  function TextOf(v: Printable): string
  {
    match v
    case Value(converted, _) => converted
    case WithToString(text) => text
  }

  // ---------------------------------------------------------------------------
  // Lemmas used by BaseLogic and properties of the transformation

  lemma {:induction false} FlattenAppend(prefix: string, a: seq<Chunk>, b: seq<Chunk>)
    ensures Flatten(prefix, a + b) == Flatten(prefix, a) + Flatten(prefix, b)
  {
    if a != [] {
      assert (a + b)[0] == a[0];
      assert (a + b)[1..] == a[1..] + b;
      FlattenAppend(prefix, a[1..], b);
    } else {
      assert a + b == b;
    }
  }

  lemma {:induction false} StripAppend(a: seq<Chunk>, b: seq<Chunk>)
    ensures Strip(a + b) == Strip(a) + Strip(b)
  {
    if a != [] {
      assert (a + b)[0] == a[0];
      assert (a + b)[1..] == a[1..] + b;
      StripAppend(a[1..], b);
    } else {
      assert a + b == b;
    }
  }

  /** find on a suffix agrees with find from an offset. */
  lemma FindShift(s: string, c: char, pos: nat)
    requires pos <= |s|
    ensures FindChar(s[pos..], c, 0) == match FindChar(s, c, pos) case None => None case Some(i) => Some(i - pos)
  {
    var a := FindChar(s[pos..], c, 0);
    var b := FindChar(s, c, pos);
    if a.Some? {
      assert s[pos + a.value] == c;
    }
    if b.Some? {
      assert s[pos..][b.value - pos] == c;
    }
  }

  lemma EmitNewline(line: string, pos: nat, nl: nat, cr: bool)
    requires pos <= |line| && FindChar(line, '\n', pos) == Some(nl)
    ensures Emit(line[pos..], cr) == (if cr then [Prefix] else []) + ([Text(line[pos..nl + 1])] + Emit(line[nl + 1..], true))
  {
    FindShift(line, '\n', pos);
    EmitAtNewline(line[pos..], nl - pos, cr, line[pos..nl + 1], line[nl + 1..]);
  }

  /** Emit on text whose first newline is at n: the line up to it, then the rest with a prefix pending. */
  lemma EmitAtNewline(t: string, n: nat, cr: bool, piece: string, rest: string)
    requires FindChar(t, '\n', 0) == Some(n) && piece == t[..n + 1] && rest == t[n + 1..]
    ensures Emit(t, cr) == (if cr then [Prefix] else []) + ([Text(piece)] + Emit(rest, true))
  {
  }

  lemma EmitLastLine(line: string, pos: nat, cr: bool)
    requires pos < |line| && FindChar(line, '\n', pos) == None
    ensures Emit(line[pos..], cr) == (if cr then [Prefix] else []) + [Text(line[pos..])]
  {
    FindShift(line, '\n', pos);
  }

  /** One pass of BaseLogic's loop: optional prefix, the line without its newline, the newline, then the rest. */
  lemma StepFlatten(prefix: string, line: string, pos: nat, nl: nat, cr: bool)
    requires pos <= |line| && FindChar(line, '\n', pos) == Some(nl)
    ensures Flatten(prefix, Emit(line[pos..], cr)) ==
      (if cr then prefix else []) + line[pos..nl] + "\n" + Flatten(prefix, Emit(line[nl + 1..], true))
  {
    EmitNewline(line, pos, nl, cr);
    var head := if cr then [Prefix] else [];
    var piece := line[pos..nl + 1];
    var rest := Emit(line[nl + 1..], true);
    var p := if cr then prefix else [];
    calc {
      Flatten(prefix, Emit(line[pos..], cr));
      Flatten(prefix, head + ([Text(piece)] + rest));
      { FlattenAppend(prefix, head, [Text(piece)] + rest); FlattenAppend(prefix, [Text(piece)], rest);
        FlattenHead(prefix, cr); FlattenText(prefix, piece); }
      p + (piece + Flatten(prefix, rest));
      { assert piece == line[pos..nl] + "\n"; Associate(p, line[pos..nl], "\n", Flatten(prefix, rest)); }
      p + line[pos..nl] + "\n" + Flatten(prefix, rest);
    }
  }

  /** What BaseLogic writes for the text after the last newline. */
  function LastWritten(ignore: bool, prefix: string, line: string, pos: nat, cr: bool): string
    requires pos <= |line|
  {
    if ignore then [] else (if cr then prefix else []) + line[pos..]
  }

  lemma LastStep(ignore: bool, prefix: string, line: string, pos: nat, cr: bool, d0: string, goal: string)
    requires pos < |line| && FindChar(line, '\n', pos) == None
    requires d0 + Pending(ignore, prefix, line[pos..], cr) == goal
    ensures d0 + LastWritten(ignore, prefix, line, pos, cr) == goal
    ensures line[|line| - 1] != '\n'
  {
    if !ignore {
      LastFlatten(prefix, line, pos, cr);
    }
  }

  lemma Associate3(a: string, b: string, c: string)
    ensures a + b + c == a + (b + c)
  {
  }

  lemma Associate(a: string, b: string, c: string, d: string)
    ensures a + b + c + d == a + (b + c + d)
  {
  }

  /** The output still owed for text t when the carriage-returned bit is cr. */
  function Pending(ignore: bool, prefix: string, t: string, cr: bool): string
  {
    if ignore then [] else Flatten(prefix, Emit(t, cr))
  }

  /** What one pass of BaseLogic's loop writes for the line line[pos..nl]. */
  function Written(ignore: bool, prefix: string, line: string, pos: nat, nl: nat, cr: bool): string
    requires pos <= nl <= |line|
  {
    if ignore then [] else (if cr then prefix else []) + line[pos..nl] + "\n"
  }

  lemma LoopStep(ignore: bool, prefix: string, line: string, pos: nat, nl: nat, cr: bool, d0: string, goal: string)
    requires pos <= |line| && FindChar(line, '\n', pos) == Some(nl)
    requires d0 + Pending(ignore, prefix, line[pos..], cr) == goal
    ensures d0 + Written(ignore, prefix, line, pos, nl, cr) + Pending(ignore, prefix, line[nl + 1..], true) == goal
  {
    if !ignore {
      StepFlatten(prefix, line, pos, nl, cr);
      var w := Written(ignore, prefix, line, pos, nl, cr);
      var rest := Pending(ignore, prefix, line[nl + 1..], true);
      assert Pending(ignore, prefix, line[pos..], cr) == w + rest;
      assert d0 + w + rest == d0 + (w + rest);
    } else {
      assert d0 + [] + [] == d0;
    }
  }

  /** For non-empty text a pending prefix is written first and then the text as if none were pending. */
  lemma EmitPendingPrefix(prefix: string, t: string, cr: bool)
    requires t != []
    ensures Flatten(prefix, Emit(t, cr)) == (if cr then prefix else []) + Flatten(prefix, Emit(t, false))
  {
    var head: seq<Chunk> := if cr then [Prefix] else [];
    var body := match FindChar(t, '\n', 0)
      case None => [Text(t)]
      case Some(nl) => [Text(t[..nl + 1])] + Emit(t[nl + 1..], true);
    assert Emit(t, false) == [] + body == body;
    assert Emit(t, cr) == head + body;
    FlattenAppend(prefix, if cr then [Prefix] else [], Emit(t, false));
    FlattenHead(prefix, cr);
  }

  lemma FlattenHead(prefix: string, cr: bool)
    ensures Flatten(prefix, if cr then [Prefix] else []) == if cr then prefix else []
  {
    if cr {
      assert [Prefix][1..] == [];
    }
  }

  lemma FlattenText(prefix: string, s: string)
    ensures Flatten(prefix, [Text(s)]) == s
  {
    assert [Text(s)][1..] == [];
  }

  /** The part after the last newline: optional prefix, then the rest of the text. */
  lemma LastFlatten(prefix: string, line: string, pos: nat, cr: bool)
    requires pos < |line| && FindChar(line, '\n', pos) == None
    ensures Flatten(prefix, Emit(line[pos..], cr)) == (if cr then prefix else []) + line[pos..]
  {
    EmitLastLine(line, pos, cr);
    FlattenAppend(prefix, if cr then [Prefix] else [], [Text(line[pos..])]);
    FlattenHead(prefix, cr);
    FlattenText(prefix, line[pos..]);
  }

  /** Taking the inserted prefixes out of the output gives back exactly the input text. */
  lemma {:induction false} StripEmit(t: string, cr: bool)
    ensures Strip(Emit(t, cr)) == t
    decreases |t|
  {
    if t != [] {
      var head := if cr then [Prefix] else [];
      StripHead(cr);
      if FindChar(t, '\n', 0).Some? {
        var nl := FindChar(t, '\n', 0).value;
        EmitCons(t, cr, nl);
        var rest := Emit(t[nl + 1..], true);
        calc {
          Strip(Emit(t, cr));
          Strip(head + [Text(t[..nl + 1])] + rest);
          { StripAppend(head + [Text(t[..nl + 1])], rest); StripAppend(head, [Text(t[..nl + 1])]); StripText(t[..nl + 1]); }
          t[..nl + 1] + Strip(rest);
          { StripEmit(t[nl + 1..], true); }
          t[..nl + 1] + t[nl + 1..];
          t;
        }
      } else {
        assert Emit(t, cr) == head + [Text(t)];
        StripAppend(head, [Text(t)]);
        StripText(t);
      }
    }
  }

  lemma StripHead(cr: bool)
    ensures Strip(if cr then [Prefix] else []) == []
  {
    if cr {
      assert [Prefix][1..] == [];
    }
  }

  lemma StripText(s: string)
    ensures Strip([Text(s)]) == s
  {
    assert [Text(s)][1..] == [];
  }

  /** BaseLogic's output with ignoreInput clear, prefixes removed, is the converted text (for non-empty text). */
  lemma BaseLogicKeepsText(line: string, raw: string, cr: bool)
    requires line != []
    ensures Strip(Chunks(line, raw, cr)) == line
  {
    StripEmit(line, cr);
  }

  /** A prefix comes first only when one was pending, and otherwise right after a chunk that ended a line. */
  predicate PrefixesAtLineStarts(e: seq<Chunk>, cr: bool)
  {
    forall j :: 0 <= j < |e| && e[j] == Prefix ==>
      (j == 0 && cr) || (j > 0 && e[j - 1].Text? && EndsInNewline(e[j - 1].s))
  }

  /** A chunk that ends a line and is not the last is followed by a prefix. */
  predicate LineEndsFollowedByPrefix(e: seq<Chunk>)
  {
    forall j :: 0 <= j < |e| - 1 && e[j].Text? && EndsInNewline(e[j].s) ==> e[j + 1] == Prefix
  }

  /** Text chunks are never empty and hold a newline only at their end. */
  predicate TextChunksAreLines(e: seq<Chunk>)
  {
    forall j :: 0 <= j < |e| && e[j].Text? ==> IsLine(e[j].s)
  }

  predicate IsLine(s: string)
  {
    s != [] && forall m :: 0 <= m < |s| - 1 ==> s[m] != '\n'
  }

  /** The shape of Emit(t, cr) after the first chunks: an optional prefix and the first line. */
  lemma EmitCons(t: string, cr: bool, nl: nat)
    requires FindChar(t, '\n', 0) == Some(nl)
    ensures Emit(t, cr) == (if cr then [Prefix] else []) + [Text(t[..nl + 1])] + Emit(t[nl + 1..], true)
    ensures IsLine(t[..nl + 1]) && EndsInNewline(t[..nl + 1])
    ensures Emit(t[nl + 1..], true) != [] ==> Emit(t[nl + 1..], true)[0] == Prefix
  {
  }

  lemma {:induction false} EmitPrefixesAtLineStarts(t: string, cr: bool)
    ensures PrefixesAtLineStarts(Emit(t, cr), cr)
    decreases |t|
  {
    if t != [] && FindChar(t, '\n', 0).Some? {
      var nl := FindChar(t, '\n', 0).value;
      EmitCons(t, cr, nl);
      EmitPrefixesAtLineStarts(t[nl + 1..], true);
      var head := if cr then [Prefix] else [];
      var rest := Emit(t[nl + 1..], true);
      var e := Emit(t, cr);
      forall j | 0 <= j < |e| && e[j] == Prefix
        ensures (j == 0 && cr) || (j > 0 && e[j - 1].Text? && EndsInNewline(e[j - 1].s))
      {
        if j > |head| + 1 {
          assert e[j] == rest[j - |head| - 1];
          assert e[j - 1] == rest[j - |head| - 2];
        }
      }
    }
  }

  lemma {:induction false} EmitLineEndsFollowedByPrefix(t: string, cr: bool)
    ensures LineEndsFollowedByPrefix(Emit(t, cr))
    decreases |t|
  {
    if t != [] && FindChar(t, '\n', 0).Some? {
      var nl := FindChar(t, '\n', 0).value;
      EmitCons(t, cr, nl);
      EmitLineEndsFollowedByPrefix(t[nl + 1..], true);
      var head := if cr then [Prefix] else [];
      var rest := Emit(t[nl + 1..], true);
      var e := Emit(t, cr);
      forall j | 0 <= j < |e| - 1 && e[j].Text? && EndsInNewline(e[j].s)
        ensures e[j + 1] == Prefix
      {
        if j > |head| {
          assert e[j] == rest[j - |head| - 1];
          assert e[j + 1] == rest[j - |head|];
        }
      }
    }
  }

  lemma {:induction false} EmitTextChunksAreLines(t: string, cr: bool)
    ensures TextChunksAreLines(Emit(t, cr))
    decreases |t|
  {
    if t != [] && FindChar(t, '\n', 0).Some? {
      var nl := FindChar(t, '\n', 0).value;
      EmitCons(t, cr, nl);
      EmitTextChunksAreLines(t[nl + 1..], true);
      var head := if cr then [Prefix] else [];
      var rest := Emit(t[nl + 1..], true);
      var e := Emit(t, cr);
      forall j | 0 <= j < |e| && e[j].Text?
        ensures IsLine(e[j].s)
      {
        if j > |head| {
          assert e[j] == rest[j - |head| - 1];
        }
      }
    }
  }

}
