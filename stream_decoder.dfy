/**
 * The incremental decoder for the vendor's stream (the `while buffer` loop of
 * `stream_chat`). The vendor wraps a stream of JSON objects in one outer array;
 * fragments arrive at arbitrary boundaries. Each fragment is appended to the
 * buffer, then the loop strips leading whitespace, drops one `[`, `,` or `]`,
 * or decodes one JSON value at the front and hands it to the response
 * translator.
 *
 * `json.JSONDecoder().raw_decode` is a parameter: it returns the value and the
 * index just past it, raises JSONDecodeError (incomplete or malformed input),
 * or raises some other exception (for instance ValueError on an integer of more
 * than 4300 digits), which sends the loop to its resynchronising branch.
 */
module StreamDecoder {
  import opened Wrappers
  import opened Strings
  import opened JsonValue
  import opened ResponseTranslator

  /** The three ways `raw_decode(buffer)` can end. */
  datatype Decoded =
    | Value(value: Json, end: nat)  // returned (obj, idx)
    | Incomplete                    // raised JSONDecodeError
    | Failure                       // raised any other exception

  /** `raw_decode` consumes at least one character and no more than the buffer holds. */
  ghost predicate ProperDecoder(decode: string -> Decoded) {
    forall s :: decode(s).Value? ==> 0 < decode(s).end <= |s|
  }

  /** The characters of the outer array framing that the loop drops one at a time. */
  predicate IsFraming(c: char) {
    c == '[' || c == ',' || c == ']'
  }

  /** One turn of the loop on a buffer: stop, drop characters, or decode a value. */
  datatype Turn =
    | Stop(rest: string)               // `break`
    | Skip(rest: string)               // `continue` with a shorter buffer
    | Emit(value: Json, at: string, rest: string)  // a value decoded from `at`; the buffer becomes `rest`

  /** The index of the earliest `[` or `{` in `s`. */
  function NextStart(s: string): (r: Option<nat>)
    ensures r.Some? ==> r.value < |s| && (s[r.value] == '[' || s[r.value] == '{')
    ensures r.Some? ==> forall i :: 0 <= i < r.value ==> s[i] != '[' && s[i] != '{'
    ensures r.None? ==> forall i :: 0 <= i < |s| ==> s[i] != '[' && s[i] != '{'
  {
    match (IndexOf(s, '['), IndexOf(s, '{'))
    case (None, None) => None
    case (Some(i), None) => Some(i)
    case (None, Some(j)) => Some(j)
    case (Some(i), Some(j)) => Some(if i < j then i else j)
  }

  /** The resynchronising branch as written: cut to the earliest `[` or `{`, or drop one character. */
  function ResyncAsWritten(b: string): string
    requires b != ""
  {
    match NextStart(b)
    case Some(k) => b[k..]
    case None => b[1..]
  }

  /** The resynchronising branch as intended: cut to the next `[` or `{` after the first character. */
  function Resync(b: string): (r: string)
    requires b != ""
    ensures |r| < |b| && r == b[|b| - |r|..]
  {
    match NextStart(b[1..])
    case Some(k) => b[k + 1..]
    case None => b[1..]
  }

  /** One turn of the loop, with the resynchronising branch as written. */
  function StepAsWritten(buffer: string, decode: string -> Decoded): Turn {
    var b := LStrip(buffer);
    if b == "" then Stop(b)
    else if IsFraming(b[0]) then Skip(b[1..])
    else match decode(b)
      case Value(v, end) => if end <= |b| then Emit(v, b, b[end..]) else Stop(b)
      case Incomplete => Stop(b)
      case Failure => Skip(ResyncAsWritten(b))
  }

  /** One turn of the loop on a buffer already stripped, with the intended resynchronising branch. */
  function TurnAt(b: string, decode: string -> Decoded): (r: Turn)
    requires ProperDecoder(decode)
    ensures r.Skip? || r.Emit? ==> |r.rest| < |b|
    ensures r.Stop? ==> r.rest == b
    ensures r.Emit? ==> r.at == b
  {
    if b == "" then Stop(b)
    else if IsFraming(b[0]) then Skip(b[1..])
    else match decode(b)
      case Value(v, end) => Emit(v, b, b[end..])
      case Incomplete => Stop(b)
      case Failure => Skip(Resync(b))
  }

  /** One turn of the loop: strip the buffer, then stop, drop characters, or decode a value. */
  function Step(buffer: string, decode: string -> Decoded): (r: Turn)
    requires ProperDecoder(decode)
    ensures r.Skip? || r.Emit? ==> |r.rest| < |buffer|
    ensures r.Stop? ==> r.rest == LStrip(buffer)
    ensures r.Emit? ==> r.at == LStrip(buffer)
  {
    TurnAt(LStrip(buffer), decode)
  }

  /** What draining a buffer produces: the chunks' deltas, an AuthError if one was raised, and the buffer left. */
  datatype Drained = Drained(deltas: seq<Delta>, auth: Option<Json>, rest: string)

  function Prepend(deltas: seq<Delta>, d: Drained): Drained {
    Drained(deltas + d.deltas, d.auth, d.rest)
  }

  /** The loop run to its end on a buffer: the first turn, then everything after it. */
  function Pump(buffer: string, decode: string -> Decoded): Drained
    requires ProperDecoder(decode)
  {
    Drain(Step(buffer, decode), decode)
  }

  /**
   * The loop from a turn on: every decoded value is translated and its deltas
   * emitted; an AuthError stops the loop with the buffer unadvanced.
   */
  function Drain(t: Turn, decode: string -> Decoded): Drained
    requires ProperDecoder(decode)
    decreases |t.rest| + if t.Stop? then 0 else 1
  {
    match t
    case Stop(r) => Drained([], None, r)
    case Skip(r) => Drain(Step(r, decode), decode)
    case Emit(v, at, r) =>
      var tr := Translate(v);
      if tr.outcome.AuthFailure? then Drained(tr.deltas, Some(tr.outcome.message), at)
      else Prepend(tr.deltas, Drain(Step(r, decode), decode))
  }

  /** The decoder's state across fragments: the text received but not yet consumed. */
  class FrameDecoder {
    var buffer: string

    constructor ()
      ensures buffer == ""
    {
      buffer := "";
    }

    /** Appends one fragment and runs the loop; `auth` is the AuthError the translator raised, if any. */
    method Feed(fragment: string, decode: string -> Decoded) returns (deltas: seq<Delta>, auth: Option<Json>)
      requires ProperDecoder(decode)
      modifies this
      ensures Drained(deltas, auth, buffer) == Pump(old(buffer) + fragment, decode)
    {
      buffer := buffer + fragment;
      deltas, auth := [], None;
      PrependNothing(Pump(buffer, decode));
      while buffer != ""
        invariant Pump(old(buffer) + fragment, decode) == Prepend(deltas, Pump(buffer, decode))
        invariant auth.None?
        decreases |buffer|
      {
        PumpStripped(buffer, decode);
        buffer := LStrip(buffer);
        if buffer == "" {
          break;
        }
        if IsFraming(buffer[0]) {
          PumpFraming(buffer, decode);
          buffer := buffer[1..];
          continue;
        }
        match decode(buffer)
        case Incomplete =>
          PumpIncomplete(buffer, decode);
          PrependStop(deltas, buffer);
          break;
        case Value(v, end) =>
          var t := Translate(v);
          PumpValue(buffer, decode, deltas);
          deltas := deltas + t.deltas;
          if t.outcome.AuthFailure? {
            auth := Some(t.outcome.message);
            return;
          }
          buffer := buffer[end..];
        case Failure =>
          PumpFailure(buffer, decode);
          buffer := Resync(buffer);
      }
      if buffer == "" {
        PumpEmpty(decode);
        PrependStop(deltas, buffer);
      }
    }
  }

  lemma PumpFraming(b: string, decode: string -> Decoded)
    requires ProperDecoder(decode)
    requires b != "" && !IsSpace(b[0]) && IsFraming(b[0])
    ensures Pump(b, decode) == Pump(b[1..], decode)
  {
    assert LStrip(b) == b;
  }

  /** The loop's accounting when a value is decoded: its deltas go after those already emitted. */
  lemma PumpValue(b: string, decode: string -> Decoded, before: seq<Delta>)
    requires ProperDecoder(decode)
    requires b != "" && !IsSpace(b[0]) && !IsFraming(b[0]) && decode(b).Value?
    ensures var t := Translate(decode(b).value);
      Prepend(before, Pump(b, decode)) ==
        if t.outcome.AuthFailure? then Drained(before + t.deltas, Some(t.outcome.message), b)
        else Prepend(before + t.deltas, Pump(b[decode(b).end..], decode))
  {
    PumpEmit(b, decode);
    var t := Translate(decode(b).value);
    if !t.outcome.AuthFailure? {
      var d := Pump(b[decode(b).end..], decode);
      assert before + (t.deltas + d.deltas) == (before + t.deltas) + d.deltas;
    }
  }

  /** On an empty buffer the loop stops at once. */
  lemma PumpEmpty(decode: string -> Decoded)
    requires ProperDecoder(decode)
    ensures Pump("", decode) == Drained([], None, "")
  {
    assert LStrip("") == "";
  }

  /** Stripping first does not change what the loop does. */
  lemma PumpStripped(b: string, decode: string -> Decoded)
    requires ProperDecoder(decode)
    ensures Pump(LStrip(b), decode) == Pump(b, decode)
  {
    LStripIdempotent(b);
    assert Step(LStrip(b), decode) == Step(b, decode);
  }

  /** When the front cannot be decoded yet, the loop stops and keeps the buffer for the next fragment. */
  lemma PumpIncomplete(b: string, decode: string -> Decoded)
    requires ProperDecoder(decode)
    requires b != "" && !IsSpace(b[0]) && !IsFraming(b[0]) && decode(b).Incomplete?
    ensures Pump(b, decode) == Drained([], None, b)
  {
    assert LStrip(b) == b;
  }

  /** Any other exception from `raw_decode` sends the loop on from the resynchronised buffer. */
  lemma PumpFailure(b: string, decode: string -> Decoded)
    requires ProperDecoder(decode)
    requires b != "" && !IsSpace(b[0]) && !IsFraming(b[0]) && decode(b).Failure?
    ensures Pump(b, decode) == Pump(Resync(b), decode)
  {
    assert LStrip(b) == b;
  }

  /** A decoded value is translated; AuthError stops the loop, otherwise it goes on after the value. */
  lemma PumpEmit(b: string, decode: string -> Decoded)
    requires ProperDecoder(decode)
    requires b != "" && !IsSpace(b[0]) && !IsFraming(b[0]) && decode(b).Value?
    ensures var t := Translate(decode(b).value);
      Pump(b, decode) ==
        if t.outcome.AuthFailure? then Drained(t.deltas, Some(t.outcome.message), b)
        else Prepend(t.deltas, Pump(b[decode(b).end..], decode))
  {
    assert LStrip(b) == b;
  }

  // ---------------------------------------------------------------------------
  // Properties
  // ---------------------------------------------------------------------------

  /** Leading whitespace and one framing character are dropped without any output. */
  lemma FramingDiscarded(ws: string, c: char, rest: string, decode: string -> Decoded)
    requires ProperDecoder(decode)
    requires AllSpace(ws)
    requires IsFraming(c)
    ensures Pump(ws + [c] + rest, decode) == Pump(rest, decode)
  {
    var x := [c] + rest;
    assert ws + [c] + rest == ws + x;
    PumpAfterSpaces(ws, x, decode);
    PumpFraming(x, decode);
    assert x[1..] == rest;
  }

  /** Leading whitespace is invisible to the loop. */
  lemma PumpAfterSpaces(ws: string, x: string, decode: string -> Decoded)
    requires ProperDecoder(decode)
    requires AllSpace(ws)
    ensures Pump(ws + x, decode) == Pump(x, decode)
  {
    LStripSpaces(ws, x);
    PumpStripped(ws + x, decode);
    PumpStripped(x, decode);
  }

  /** Drained from a turn taken on a stripped buffer, the buffer left is stripped too. */
  lemma {:induction false} DrainRestStripped(t: Turn, decode: string -> Decoded)
    requires ProperDecoder(decode)
    requires t.Stop? ==> t.rest == [] || !IsSpace(t.rest[0])
    requires t.Emit? ==> t.at == [] || !IsSpace(t.at[0])
    ensures var d := Drain(t, decode); d.rest == [] || !IsSpace(d.rest[0])
    decreases |t.rest| + if t.Stop? then 0 else 1
  {
    match t
    case Stop(_) =>
    case Skip(r) => DrainRestStripped(Step(r, decode), decode);
    case Emit(v, _, r) =>
      if !Translate(v).outcome.AuthFailure? {
        DrainRestStripped(Step(r, decode), decode);
      }
  }

  /** Whatever is left in the buffer starts with a non-space character unless it is empty. */
  lemma RestIsStripped(b: string, decode: string -> Decoded)
    requires ProperDecoder(decode)
    ensures var d := Pump(b, decode); d.rest == [] || !IsSpace(d.rest[0])
  {
    DrainRestStripped(Step(b, decode), decode);
  }

  /** On input that never decodes, the loop consumes the whole buffer and emits nothing. */
  lemma {:induction false} GarbageFullyConsumed(b: string, decode: string -> Decoded)
    requires ProperDecoder(decode)
    requires forall s :: decode(s) == Failure
    ensures Pump(b, decode) == Drained([], None, "")
    decreases |b|
  {
    match Step(b, decode)
    case Stop(r) =>
    case Skip(r) => GarbageFullyConsumed(r, decode);
    case Emit(v, _, r) =>
  }

  /**
   * A decoder for a well-formed stream: it never raises anything but
   * JSONDecodeError, and a value it decodes does not depend on the text after
   * it. (A bare number is not self-delimiting: "12" decodes before "3" arrives.)
   */
  ghost predicate SelfDelimiting(decode: string -> Decoded) {
    (forall s :: decode(s) != Failure) &&
    forall s, t {:trigger decode(s + t)} :: decode(s).Value? ==> decode(s + t) == decode(s)
  }

  /**
   * Fragment boundaries do not matter: feeding `f` after the loop has drained
   * `b` emits, after the deltas of `b`, what draining `b + f` in one go emits,
   * and leaves the same buffer.
   */
  lemma {:induction false} ChunkingInvariant(b: string, f: string, decode: string -> Decoded)
    requires ProperDecoder(decode) && SelfDelimiting(decode)
    requires Pump(b, decode).auth.None?
    ensures Pump(b + f, decode) == Prepend(Pump(b, decode).deltas, Pump(Pump(b, decode).rest + f, decode))
    decreases |b|, 2
  {
    var s := LStrip(b);
    var ws := b[..|b| - |s|];
    SplitAppend(b, |b| - |s|, f);
    PumpAfterSpaces(ws, s + f, decode);
    PumpStripped(b, decode);
    ChunkingStripped(s, f, decode);
  }

  /** The same, for a buffer that starts with a non-space character. */
  lemma {:induction false} ChunkingStripped(s: string, f: string, decode: string -> Decoded)
    requires ProperDecoder(decode) && SelfDelimiting(decode)
    requires s == [] || !IsSpace(s[0])
    requires Pump(s, decode).auth.None?
    ensures Pump(s + f, decode) == Prepend(Pump(s, decode).deltas, Pump(Pump(s, decode).rest + f, decode))
    decreases |s|, 1
  {
    if s == [] {
      assert LStrip(s) == s && s + f == f;
      assert Pump(s, decode) == Drained([], None, "");
      PrependNothing(Pump(f, decode));
    } else if IsFraming(s[0]) {
      ChunkingFraming(s, f, decode);
    } else {
      match decode(s)
      case Incomplete =>
        ChunkingIncomplete(s, f, decode);
      case Value(_, _) =>
        ChunkingValue(s, f, decode);
      case Failure =>
        assert false;
    }
  }

  lemma {:induction false} ChunkingFraming(s: string, f: string, decode: string -> Decoded)
    requires ProperDecoder(decode) && SelfDelimiting(decode)
    requires s != [] && !IsSpace(s[0]) && IsFraming(s[0])
    requires Pump(s, decode).auth.None?
    ensures Pump(s + f, decode) == Prepend(Pump(s, decode).deltas, Pump(Pump(s, decode).rest + f, decode))
    decreases |s|, 0
  {
    AppendSuffix(s, f, 1);
    PumpFraming(s, decode);
    PumpFraming(s + f, decode);
    ChunkingInvariant(s[1..], f, decode);
  }

  lemma ChunkingIncomplete(s: string, f: string, decode: string -> Decoded)
    requires ProperDecoder(decode)
    requires s != [] && !IsSpace(s[0]) && !IsFraming(s[0]) && decode(s).Incomplete?
    ensures Pump(s + f, decode) == Prepend(Pump(s, decode).deltas, Pump(Pump(s, decode).rest + f, decode))
  {
    PumpIncomplete(s, decode);
    PrependNothing(Pump(s + f, decode));
  }

  lemma {:induction false} ChunkingValue(s: string, f: string, decode: string -> Decoded)
    requires ProperDecoder(decode) && SelfDelimiting(decode)
    requires s != [] && !IsSpace(s[0]) && !IsFraming(s[0]) && decode(s).Value?
    requires Pump(s, decode).auth.None?
    ensures Pump(s + f, decode) == Prepend(Pump(s, decode).deltas, Pump(Pump(s, decode).rest + f, decode))
    decreases |s|, 0
  {
    var end := decode(s).end;
    AppendSuffix(s, f, end);
    assert decode(s + f) == decode(s);
    PumpEmit(s, decode);
    PumpEmit(s + f, decode);
    var r := s[end..];
    ChunkingInvariant(r, f, decode);
    PrependTwice(Translate(decode(s).value).deltas, Pump(r, decode), Pump(Pump(r, decode).rest + f, decode));
  }

  /** Appending after a suffix: what follows index `k` of `s + f`. */
  lemma AppendSuffix(s: string, f: string, k: nat)
    requires 0 < k <= |s|
    ensures (s + f)[0] == s[0] && (s + f)[k..] == s[k..] + f
  {
    assert forall i :: 0 <= i < |s| - k + |f| ==> (s + f)[k..][i] == (s[k..] + f)[i];
  }

  /** Cutting `b` at `k` and appending `f` to the second part. */
  lemma SplitAppend(b: string, k: nat, f: string)
    requires k <= |b|
    ensures b == b[..k] + b[k..] && b + f == b[..k] + (b[k..] + f)
  {
    assert b == b[..k] + b[k..];
  }

  lemma PrependNothing(d: Drained)
    ensures Prepend([], d) == d
  {
    assert [] + d.deltas == d.deltas;
  }

  lemma PrependStop(deltas: seq<Delta>, b: string)
    ensures Prepend(deltas, Drained([], None, b)) == Drained(deltas, None, b)
  {
    assert deltas + [] == deltas;
  }

  lemma PrependTwice(a: seq<Delta>, d: Drained, e: Drained)
    ensures Prepend(a, Prepend(d.deltas, e)) == Prepend(Prepend(a, d).deltas, e)
  {
    assert a + (d.deltas + e.deltas) == (a + d.deltas) + e.deltas;
  }

  /**
   * As written, when `raw_decode` raises something other than JSONDecodeError on
   * a buffer that starts with `{`, the resynchronising branch leaves the buffer
   * unchanged, so the loop repeats the same turn forever.
   */
  lemma ResyncAsWrittenStalls(b: string, decode: string -> Decoded)
    requires b != "" && b[0] == '{' && decode(b) == Failure
    ensures StepAsWritten(b, decode) == Skip(b)
  {
    assert LStrip(b) == b;
    assert NextStart(b) == Some(0);
  }

  /**
   * A buffer on which the as-written loop makes no progress: an object whose
   * first value is an integer of more than 4300 digits. Python 3.11 and later
   * refuse to convert such an integer and `raw_decode` raises ValueError, not
   * JSONDecodeError.
   */
  lemma ResyncAsWrittenStallsOnLongInteger(digits: string, decode: string -> Decoded)
    requires |digits| > 4300 && forall i :: 0 <= i < |digits| ==> '0' <= digits[i] <= '9'
    requires decode("{\"a\":" + digits) == Failure
    ensures StepAsWritten("{\"a\":" + digits, decode) == Skip("{\"a\":" + digits)
  {
    var b := "{\"a\":" + digits;
    assert b[0] == '{';
    ResyncAsWrittenStalls(b, decode);
  }

  /** The intended branch always shortens the buffer and keeps everything from the next `[` or `{` on. */
  lemma ResyncProgress(b: string)
    requires b != ""
    ensures |Resync(b)| < |b|
    ensures Resync(b) == b[1..] || Resync(b)[0] == '[' || Resync(b)[0] == '{'
    ensures forall i :: 1 <= i < |b| - |Resync(b)| ==> b[i] != '[' && b[i] != '{'
  {
  }

  /** The two branches agree except when the buffer starts with `{`. */
  lemma ResyncAgreesAwayFromBrace(b: string)
    requires b != "" && b[0] != '{' && b[0] != '['
    ensures Resync(b) == ResyncAsWritten(b)
  {
    match NextStart(b)
    case None =>
      assert NextStart(b[1..]).None?;
    case Some(k) =>
      var r := NextStart(b[1..]);
      assert b[1..][k - 1] == b[k];
      assert r.Some? && r.value <= k - 1;
      assert b[1..][r.value] == b[r.value + 1];
      assert r.value + 1 >= k;
  }
}
