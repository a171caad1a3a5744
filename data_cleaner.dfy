/** The payload cleaner (`src/pipeline/data_cleaner.py`): every
    `<script…</script>` span is cut out of the raw response text, the rest is
    stripped of surrounding whitespace and handed to the literal parser,
    which either yields the whole list of records or fails.

    The parser (`ast.literal_eval`) is an uninterpreted partial function
    `parse`, where `None` stands for any exception it raises. */
module DataCleaner {
  import opened Common
  import opened Points

  const OPEN: string := "<script"
  const CLOSE: string := "</script>"

  /** The first span of `s` that starts with `open` and ends at the first
      `close` after it: the text kept before the span, the span's body and
      the text after it.  `None` when `open` does not occur, or no `close`
      follows its first occurrence. */
  function FirstSpan(s: string, open: string, close: string): (r: Option<(string, string, string)>)
    requires open != []
    ensures r.Some? ==> |r.value.0| + |r.value.2| < |s|
  {
    match SpanIndices(s, open, close)
    case None => None
    case Some((i, e)) => Some(SpanAt(s, open, close, i, e))
  }

  /** Where the first span starts and where its `close` begins: the first
      `open` of the text and the first `close` after it. */
  function SpanIndices(s: string, open: string, close: string): (r: Option<(nat, nat)>)
    requires open != []
    ensures r.Some? ==> r.value.0 + |open| <= r.value.1 && r.value.1 + |close| <= |s|
    ensures r.Some? ==> IndexOf(s, open) == Some(r.value.0)
    ensures r.Some? ==> IndexFrom(s, close, r.value.0 + |open|) == Some(r.value.1)
  {
    var i := IndexOf(s, open);
    BothFound(i, if i.Some? then IndexFrom(s, close, i.value + |open|) else None)
  }

  /** Both indices, when both were found. */
  function BothFound(i: Option<nat>, e: Option<nat>): (r: Option<(nat, nat)>)
    ensures r.Some? <==> i.Some? && e.Some?
    ensures r.Some? ==> r.value == (i.value, e.value)
  {
    if i.Some? && e.Some? then Some((i.value, e.value)) else None
  }

  /** The text before a span from `i` to the `close` at `e`, the span's
      body, and the text after it. */
  function SpanAt(s: string, open: string, close: string, i: nat, e: nat): (string, string, string)
    requires i + |open| <= e && e + |close| <= |s|
  {
    (s[..i], s[i + |open|..e], s[e + |close|..])
  }

  /** The three parts put back together, with `open` and `close` in their
      places, are the text. */
  lemma SpanAtParts(s: string, open: string, close: string, i: nat, e: nat)
    requires OccursAt(s, open, i) && i + |open| <= e && OccursAt(s, close, e)
    ensures var (kept, body, rest) := SpanAt(s, open, close, i, e);
      && s == kept + open + body + close + rest
      && s == (kept + open) + (body + close) + rest
  {
    var (kept, body, rest) := SpanAt(s, open, close, i, e);
    assert s == s[..i] + s[i..i + |open|] + s[i + |open|..e] + s[e..e + |close|] + s[e + |close|..];
    assert (kept + open) + (body + close) + rest == kept + open + body + close + rest;
  }

  /** Text appended after a span only lengthens what follows it. */
  lemma SpanAtExtend(a: string, t: string, open: string, close: string, i: nat, e: nat)
    requires i + |open| <= e && e + |close| <= |a|
    ensures var (kept, body, rest) := SpanAt(a, open, close, i, e);
      SpanAt(a + t, open, close, i, e) == (kept, body, rest + t)
  {
    assert (a + t)[..i] == a[..i];
    assert (a + t)[i + |open|..e] == a[i + |open|..e];
    assert (a + t)[e + |close|..] == a[e + |close|..] + t;
  }

  /** A body in which the enclosing text shows no `close` ends at the first
      `close` of `body + close`. */
  lemma FirstCloseOfBody(x: string, body: string, close: string, rest: string)
    requires forall j :: |x| <= j < |x| + |body| ==> !OccursAt(x + (body + close) + rest, close, j)
    ensures IndexOf(body + close, close) == Some(|body|)
  {
    forall j | 0 <= j < |body|
      ensures !OccursAt(body + close, close, j)
    {
      OccursAtShift(x, body + close, rest, close, j);
    }
    OccursAtShift(x, body + close, rest, close, |body|);
    IndexFromFirst(body + close, close, 0, |body|);
  }

  /** `re.sub(open + ".*?" + close, "", s, flags=re.DOTALL)`.  The scan goes
      left to right: at the first `open` the shortest span up to a later
      `close` is removed (`.` also matches newlines, so the span may cross
      lines) and the scan resumes after it.  When no `close` follows the first
      `open`, none follows any later `open` either, so the rest of the text is
      kept as it is. */
  function StripSpans(s: string, open: string, close: string): (r: string)
    requires open != []
    ensures |r| <= |s|
    decreases |s|
  {
    match FirstSpan(s, open, close)
    case None => s
    case Some((kept, _, rest)) => kept + StripSpans(rest, open, close)
  }

  /** `re.sub(r"<script.*?</script>", "", s, flags=re.DOTALL)`. */
  function StripScripts(s: string): (r: string)
    ensures |r| <= |s|
  {
    StripSpans(s, OPEN, CLOSE)
  }

  /** What the first span is: the text is `kept + open + body + close +
      rest`, the span starts at the first `open` of the text, and it ends at
      the first `close` after that `open` (the body holds none).  There is
      no such span exactly when `open` does not occur, or no `close` follows
      its first occurrence. */
  lemma FirstSpanFinds(s: string, open: string, close: string)
    requires open != []
    ensures var r := FirstSpan(s, open, close);
      r.Some? ==>
        var (kept, body, rest) := r.value;
        && s == kept + open + body + close + rest
        && IndexOf(s, open) == Some(|kept|)
        && IndexOf(body + close, close) == Some(|body|)
    ensures FirstSpan(s, open, close).None? <==>
              IndexOf(s, open).None? || IndexFrom(s, close, IndexOf(s, open).value + |open|).None?
  {
    var r := FirstSpan(s, open, close);
    if r.Some? {
      var i := IndexOf(s, open).value;
      var e := IndexFrom(s, close, i + |open|).value;
      SpanAtParts(s, open, close, i, e);
      var (kept, body, rest) := r.value;
      FirstCloseOfBody(kept + open, body, close, rest);
    }
  }

  lemma NoCloseSpansUnchanged(s: string, open: string, close: string)
    requires open != [] && IndexOf(s, close).None?
    ensures StripSpans(s, open, close) == s
  {
    assert FirstSpan(s, open, close).None?;
  }

  /** Text with no `</script>` in it is left unchanged, whatever `<script`
      it holds: an unterminated script tag stays in place. */
  lemma NoCloseUnchanged(s: string)
    requires IndexOf(s, CLOSE).None?
    ensures StripScripts(s) == s
  {
    NoCloseSpansUnchanged(s, OPEN, CLOSE);
  }

  /** When no `</script>` follows the first `<script`, the text is left
      unchanged, even if a `</script>` comes before that tag. */
  lemma UnclosedUnchanged(s: string, i: nat)
    requires IndexOf(s, OPEN) == Some(i) && IndexFrom(s, CLOSE, i + |OPEN|).None?
    ensures StripScripts(s) == s
  {
    assert FirstSpan(s, OPEN, CLOSE).None?;
  }

  /** Every `open` the scan of `a` meets is closed within `a`: the scan
      ends on a text without `open`. */
  predicate Closed(a: string, open: string, close: string)
    requires open != []
    decreases |a|
  {
    match FirstSpan(a, open, close)
    case None => IndexOf(a, open).None?
    case Some((_, _, rest)) => Closed(rest, open, close)
  }

  /** The first span is the one at the first `open` and the first `close`
      after it. */
  lemma FirstSpanIs(s: string, open: string, close: string, i: nat, e: nat)
    requires open != [] && SpanIndices(s, open, close) == Some((i, e))
    ensures i + |open| <= e && e + |close| <= |s|
    ensures FirstSpan(s, open, close) == Some(SpanAt(s, open, close, i, e))
  {
  }

  /** Text appended after a text holding a span does not move that span. */
  lemma SpanIndicesExtend(a: string, t: string, open: string, close: string)
    requires open != [] && SpanIndices(a, open, close).Some?
    ensures SpanIndices(a + t, open, close) == SpanIndices(a, open, close)
  {
    var i := IndexOf(a, open).value;
    IndexOfExtend(a, open, t);
    IndexFromExtend(a, close, t, i + |open|);
    SpanIndicesSame(a, a + t, open, close, i);
  }

  /** Texts that agree on the first `open` and on the first `close` after
      it agree on the span's indices. */
  lemma SpanIndicesSame(s: string, s': string, open: string, close: string, i: nat)
    requires open != [] && IndexOf(s, open) == Some(i) && IndexOf(s', open) == Some(i)
    requires IndexFrom(s', close, i + |open|) == IndexFrom(s, close, i + |open|)
    ensures SpanIndices(s', open, close) == SpanIndices(s, open, close)
  {
    var e := IndexFrom(s, close, i + |open|);
    if e.Some? {
      SpanIndicesOf(s, open, close, i, e.value);
      SpanIndicesOf(s', open, close, i, e.value);
    }
  }

  /** The first `open` and the first `close` after it are the span's
      indices. */
  lemma SpanIndicesOf(s: string, open: string, close: string, i: nat, e: nat)
    requires open != [] && IndexOf(s, open) == Some(i) && IndexFrom(s, close, i + |open|) == Some(e)
    ensures SpanIndices(s, open, close) == Some((i, e))
  {
  }

  /** The first span of a text whose first `open` is at `i`, and whose
      first `close` after it is at `e`. */
  lemma FirstSpanOf(s: string, open: string, close: string, i: nat, e: nat)
    requires open != [] && IndexOf(s, open) == Some(i) && IndexFrom(s, close, i + |open|) == Some(e)
    ensures i + |open| <= e && e + |close| <= |s|
    ensures FirstSpan(s, open, close) == Some(SpanAt(s, open, close, i, e))
  {
    SpanIndicesOf(s, open, close, i, e);
    FirstSpanIs(s, open, close, i, e);
  }

  /** Text appended after the first span does not change where it is. */
  lemma FirstSpanExtend(a: string, t: string, open: string, close: string)
    requires open != [] && FirstSpan(a, open, close).Some?
    ensures var (kept, body, rest) := FirstSpan(a, open, close).value;
      FirstSpan(a + t, open, close) == Some((kept, body, rest + t))
  {
    var (i, e) := SpanIndices(a, open, close).value;
    FirstSpanIs(a, open, close, i, e);
    SpanIndicesExtend(a, t, open, close);
    FirstSpanIs(a + t, open, close, i, e);
    SpanAtExtend(a, t, open, close, i, e);
  }

  /** An `open` that does not recur its first character cannot start
      inside `a` and run on into a `t` that starts with `open`. */
  lemma NoStraddle(a: string, t: string, open: string, j: nat)
    requires |open| <= |t| && t[..|open|] == open
    requires forall k :: 0 < k < |open| ==> open[k] != open[0]
    requires j < |a| < j + |open|
    ensures !OccursAt(a + t, open, j)
  {
    var k := |a| - j;
    assert (a + t)[j..j + |open|][k] == (a + t)[|a|] == t[0] == open[0] != open[k];
  }

  /** When `a` holds no `open` and `t` starts with one but holds no
      `close`, the first `open` of `a + t` is where `t` begins and no
      `close` follows it. */
  lemma NoSpanBeforeTail(a: string, t: string, open: string, close: string)
    requires open != [] && IndexOf(a, open).None?
    requires |open| <= |t| && t[..|open|] == open && IndexOf(t, close).None?
    requires forall k :: 0 < k < |open| ==> open[k] != open[0]
    ensures FirstSpan(a + t, open, close).None?
  {
    forall j | 0 <= j < |a|
      ensures !OccursAt(a + t, open, j)
    {
      if j + |open| <= |a| {
        OccursAtExtend(a, open, t, j);
      } else {
        NoStraddle(a, t, open, j);
      }
    }
    OccursAtAfter(a, t, open, 0);
    IndexFromFirst(a + t, open, 0, |a|);
    forall j | |a| + |open| <= j
      ensures !OccursAt(a + t, close, j)
    {
      if j + |close| <= |a + t| {
        OccursAtAfter(a, t, close, j - |a|);
      }
    }
  }

  /** An unclosed tail is kept: after a text whose spans all close, a tail
      that starts with `open` and holds no `close` survives the scan as it
      is.  `open` must not overlap itself (its first character does not
      recur in it), so that no `open` straddles the boundary. */
  lemma {:induction false} UnclosedTailKept(a: string, t: string, open: string, close: string)
    requires open != [] && Closed(a, open, close)
    requires |open| <= |t| && t[..|open|] == open && IndexOf(t, close).None?
    requires forall k :: 0 < k < |open| ==> open[k] != open[0]
    ensures StripSpans(a + t, open, close) == StripSpans(a, open, close) + t
    decreases |a|
  {
    var r := FirstSpan(a, open, close);
    if r.None? {
      NoSpanBeforeTail(a, t, open, close);
    } else {
      var (kept, body, rest) := r.value;
      FirstSpanExtend(a, t, open, close);
      UnclosedTailKept(rest, t, open, close);
      calc {
        StripSpans(a + t, open, close);
        kept + StripSpans(rest + t, open, close);
        kept + (StripSpans(rest, open, close) + t);
        (kept + StripSpans(rest, open, close)) + t;
        StripSpans(a, open, close) + t;
      }
    }
  }

  /** An unterminated script tag at the end of the payload, after text
      whose script spans all close, is kept with everything after it. */
  lemma UnclosedScriptTailKept(a: string, t: string)
    requires Closed(a, OPEN, CLOSE)
    requires |OPEN| <= |t| && t[..|OPEN|] == OPEN && IndexOf(t, CLOSE).None?
    ensures StripScripts(a + t) == StripScripts(a) + t
  {
    OpenDoesNotRecur();
    UnclosedTailKept(a, t, OPEN, CLOSE);
  }

  /** `<` occurs in `<script` only at its start. */
  lemma OpenDoesNotRecur()
    ensures forall k :: 0 < k < |OPEN| ==> OPEN[k] != OPEN[0]
  {
  }

  /** The parts of a text that starts with a span are found again. */
  lemma SpanAtFront(s: string, open: string, body: string, close: string, rest: string)
    requires s == open + body + close + rest
    ensures SpanAt(s, open, close, 0, |open| + |body|) == ([], body, rest)
  {
    assert s[|open|..|open| + |body|] == body;
    assert s[|open| + |body| + |close|..] == rest;
  }

  /** A body whose `body + close` shows its first `close` at the end holds
      no `close` wherever it is placed. */
  lemma CloseEndsBody(x: string, body: string, close: string, rest: string)
    requires IndexOf(body + close, close) == Some(|body|)
    ensures forall j :: |x| <= j < |x| + |body| ==> !OccursAt(x + (body + close) + rest, close, j)
    ensures OccursAt(x + (body + close) + rest, close, |x| + |body|)
  {
    forall j | |x| <= j < |x| + |body|
      ensures !OccursAt(x + (body + close) + rest, close, j)
    {
      OccursAtShift(x, body + close, rest, close, j - |x|);
    }
    OccursAtShift(x, body + close, rest, close, |body|);
  }

  /** After a leading `open`, the first `close` is the one that ends the
      body. */
  lemma LeadingClose(open: string, close: string, body: string, rest: string)
    requires IndexOf(body + close, close) == Some(|body|)
    ensures IndexFrom(open + (body + close) + rest, close, |open|) == Some(|open| + |body|)
  {
    CloseEndsBody(open, body, close, rest);
    IndexFromFirst(open + (body + close) + rest, close, |open|, |open| + |body|);
  }

  /** In a text that starts with a span, `open` is found at the front and
      the first `close` after it is the one that ends the body. */
  lemma LeadingIndices(open: string, close: string, body: string, rest: string)
    requires open != [] && IndexOf(body + close, close) == Some(|body|)
    ensures var s := open + body + close + rest;
      IndexOf(s, open) == Some(0) && IndexFrom(s, close, |open|) == Some(|open| + |body|)
  {
    var s := open + body + close + rest;
    assert OccursAt(s, open, 0) by {
      assert s[0..|open|] == open;
    }
    IndexFromFirst(s, open, 0, 0);
    LeadingClose(open, close, body, rest);
    Regroup(open, body, close, rest);
  }

  /** A span at the very front is found first, and ends at the first `close`
      of its body. */
  lemma FirstSpanLeading(open: string, close: string, body: string, rest: string)
    requires open != [] && IndexOf(body + close, close) == Some(|body|)
    ensures FirstSpan(open + body + close + rest, open, close) == Some(([], body, rest))
  {
    var s := open + body + close + rest;
    LeadingIndices(open, close, body, rest);
    FirstSpanOf(s, open, close, 0, |open| + |body|);
    SpanAtFront(s, open, body, close, rest);
  }

  lemma LeadingSpanRemoved(open: string, close: string, body: string, rest: string)
    requires open != [] && IndexOf(body + close, close) == Some(|body|)
    ensures StripSpans(open + body + close + rest, open, close) == StripSpans(rest, open, close)
  {
    FirstSpanLeading(open, close, body, rest);
  }

  /** A script span at the very front is removed up to its first
      `</script>`, and nothing else of the text is touched by that step. */
  lemma LeadingScriptRemoved(body: string, rest: string)
    requires IndexOf(body + CLOSE, CLOSE) == Some(|body|)
    ensures StripScripts(OPEN + body + CLOSE + rest) == StripScripts(rest)
  {
    LeadingSpanRemoved(OPEN, CLOSE, body, rest);
  }

  datatype ParseError = ParseFailed

  /** `clean_and_parse_data(raw)`: the parse of the cleaned text; a parse
      failure is re-raised, so no partial list is ever returned. */
  function CleanAndParse(raw: string, parse: string -> Option<seq<Record>>): (r: Result<seq<Record>, ParseError>)
    ensures r.Ok? ==> parse(Strip(StripScripts(raw))) == Some(r.value)
    ensures IndexOf(raw, CLOSE).None? ==> (r.Ok? <==> parse(Strip(raw)).Some?)
  {
    assert IndexOf(raw, CLOSE).None? ==> StripScripts(raw) == raw by {
      if IndexOf(raw, CLOSE).None? {
        NoCloseUnchanged(raw);
      }
    }
    match parse(Strip(StripScripts(raw)))
    case None => Err(ParseFailed)
    case Some(records) => Ok(records)
  }

  /** Text without `<script` reaches the parser as its stripped self. */
  lemma PlainPayloadParsed(raw: string, parse: string -> Option<seq<Record>>)
    requires IndexOf(raw, OPEN).None?
    ensures CleanAndParse(raw, parse) == (if parse(Strip(raw)).Some? then Ok(parse(Strip(raw)).value) else Err(ParseFailed))
  {
  }

  /** A payload preceded by one script span parses to the same records as
      the payload alone. */
  lemma ScriptPrefixedPayload(body: string, payload: string, parse: string -> Option<seq<Record>>)
    requires IndexOf(body + CLOSE, CLOSE) == Some(|body|)
    ensures CleanAndParse(OPEN + body + CLOSE + payload, parse) == CleanAndParse(payload, parse)
  {
    LeadingScriptRemoved(body, payload);
  }

  /** What `clean_data` returns: the parsed records, or the integer `0`. */
  datatype Cleaned = Records(records: seq<Record>) | Zero

  /** `clean_data(raw_data, …)`: the records when cleaning and parsing
      succeed, `0` instead of an exception otherwise.  `raw` is `None` when
      the live fetch returned an element without text; `re.sub` then raises
      a `TypeError`, which is caught like a parse failure. */
  function CleanData(raw: Option<string>, parse: string -> Option<seq<Record>>): (r: Cleaned)
    ensures r == Zero <==> raw.None? || CleanAndParse(raw.value, parse).Err?
    ensures r.Records? ==> CleanAndParse(raw.value, parse) == Ok(r.records)
  {
    if raw.None? then Zero
    else match CleanAndParse(raw.value, parse)
      case Err(_) => Zero
      case Ok(records) => Records(records)
  }

  /** `clean_data` agrees with `clean_and_parse_data` exactly: the same
      records on success, `0` exactly when the latter raises. */
  lemma CleanDataAgrees(raw: string, parse: string -> Option<seq<Record>>)
    ensures CleanData(Some(raw), parse) == Zero <==> CleanAndParse(raw, parse).Err?
    ensures forall rs :: CleanData(Some(raw), parse) == Records(rs) <==> CleanAndParse(raw, parse) == Ok(rs)
    ensures CleanData(None, parse) == Zero
  {
  }
}
