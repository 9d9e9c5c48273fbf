/** The body of a streaming call: the split function the scanner uses to cut
    the body into blank-line separated events, and the loop that turns each
    event into the items handed to the caller's `yield`. */
module StreamDecoder {
  import opened Wrappers
  import opened Seqs
  import opened Common
  import ApiClient

  const LFLF: Bytes := [LF, LF]
  const CRLFCRLF: Bytes := [CR, LF, CR, LF]
  /** The bytes of "data", the only field name the decoder accepts. */
  const DataField: Bytes := [100, 97, 116, 97]

  /** Go's `dropCR`: one terminal carriage return is removed. */
  function DropCR(data: Bytes): (r: Bytes)
    ensures StartsWith(data, r) && |data| - 1 <= |r| <= |data|
    ensures |r| < |data| <==> |data| > 0 && data[|data| - 1] == CR
  {
    if |data| > 0 && data[|data| - 1] == CR then data[..|data| - 1] else data
  }

  /** Removing a terminal CR undoes appending one, and only one is removed. */
  lemma DropCRAppended(t: Bytes)
    ensures DropCR(t + [CR]) == t
    ensures DropCR(t + [CR, CR]) == t + [CR]
  {
    assert (t + [CR])[..|t|] == t;
    assert (t + [CR, CR])[..|t| + 1] == t + [CR];
  }

  /** What one call of the split function returns: how far to advance, and
      the token, if one is complete (None is Go's nil token). */
  datatype ScanResult = ScanResult(advance: nat, token: Option<Bytes>)

  /** No occurrence of `pat` starts before `i` in `s`, so none occurs in any
      prefix of `s[..i]`. */
  lemma AbsentInPrefix(s: Bytes, pat: Bytes, i: nat, t: Bytes)
    requires |pat| > 0 && i <= |s|
    requires forall j: nat :: j < i ==> !OccursAt(s, pat, j)
    requires StartsWith(s[..i], t)
    ensures Absent(t, pat)
  {
    assert |t| <= i && t == s[..|t|] by {
      assert s[..i][..|t|] == s[..|t|];
    }
    forall j: nat ensures !OccursAt(t, pat, j) {
      if j + |pat| <= |t| {
        assert t[j..j + |pat|] == s[j..j + |pat|];
        assert !OccursAt(s, pat, j);
      }
    }
  }

  /** Go's `scan`: the token before the first blank line ("\n\n"), or, when
      the buffer holds none, before the first "\r\n\r\n"; at end of input the
      remainder; otherwise a request for more data. */
  function Scan(data: Bytes, atEOF: bool): (r: ScanResult)
    ensures r.advance <= |data|
    ensures r.token.Some? ==> StartsWith(data, r.token.value) && Absent(r.token.value, LFLF)
    ensures r.token.None? ==> r.advance == 0
    ensures atEOF && |data| == 0 ==> r == ScanResult(0, None)
    ensures atEOF && |data| > 0 ==> r.token.Some? && r.advance > 0
    ensures forall i: nat :: FirstAt(data, LFLF, i) ==> r == ScanResult(i + 2, Some(DropCR(data[..i])))
    ensures Absent(data, LFLF) ==>
              forall i: nat :: FirstAt(data, CRLFCRLF, i) ==> r == ScanResult(i + 4, Some(DropCR(data[..i])))
    ensures Absent(data, LFLF) && Absent(data, CRLFCRLF) && atEOF && |data| > 0 ==>
              r == ScanResult(|data|, Some(DropCR(data)))
    ensures Absent(data, LFLF) && Absent(data, CRLFCRLF) && !atEOF ==> r == ScanResult(0, None)
  {
    if atEOF && |data| == 0 then ScanResult(0, None)
    else if IndexOf(data, LFLF).Some? then
      var i := IndexOf(data, LFLF).value;
      assert forall k: nat :: FirstAt(data, LFLF, k) ==> k == i by {
        forall k: nat | FirstAt(data, LFLF, k) ensures k == i {
          FirstAtUnique(data, LFLF, k, i);
        }
      }
      AbsentInPrefix(data, LFLF, i, DropCR(data[..i]));
      ScanResult(i + 2, Some(DropCR(data[..i])))
    else if IndexOf(data, CRLFCRLF).Some? then
      var i := IndexOf(data, CRLFCRLF).value;
      assert forall k: nat :: FirstAt(data, CRLFCRLF, k) ==> k == i by {
        forall k: nat | FirstAt(data, CRLFCRLF, k) ensures k == i {
          FirstAtUnique(data, CRLFCRLF, k, i);
        }
      }
      AbsentInPrefix(data, LFLF, i, DropCR(data[..i]));
      ScanResult(i + 4, Some(DropCR(data[..i])))
    else if atEOF then
      assert data[..|data|] == data;
      AbsentInPrefix(data, LFLF, |data|, DropCR(data));
      ScanResult(|data|, Some(DropCR(data)))
    else ScanResult(0, None)
  }

  /** The tokens a scanner reading the whole body yields, in order. */
  function SplitAll(body: Bytes): (tokens: seq<Bytes>)
    ensures forall k :: 0 <= k < |tokens| ==> Absent(tokens[k], LFLF)
    ensures |tokens| <= |body|
    decreases |body|
  {
    if |body| == 0 then []
    else
      var r := Scan(body, true);
      [r.token.value] + SplitAll(body[r.advance..])
  }

  /** An event that survives framing: no blank line inside, and no final
      LF or CR that would merge with the delimiter. */
  ghost predicate Frameable(t: Bytes) {
    Absent(t, LFLF) && (|t| == 0 || (t[|t| - 1] != LF && t[|t| - 1] != CR))
  }

  /** The body a server sends for `events`: each followed by a blank line. */
  function JoinFrames(events: seq<Bytes>): Bytes {
    if events == [] then [] else events[0] + LFLF + JoinFrames(events[1..])
  }

  /** Framing then scanning gives back the events, whatever they hold. */
  lemma {:induction false} SplitJoin(events: seq<Bytes>)
    requires forall k :: 0 <= k < |events| ==> Frameable(events[k])
    ensures SplitAll(JoinFrames(events)) == events
  {
    if events != [] {
      var t := events[0];
      var rest := JoinFrames(events[1..]);
      var body := t + LFLF + rest;
      assert body[|t|..|t| + 2] == LFLF;
      forall j: nat | j < |t| ensures !OccursAt(body, LFLF, j) {
        if j + 2 <= |t| {
          assert body[j..j + 2] == t[j..j + 2];
          assert !OccursAt(t, LFLF, j);
        } else {
          assert body[j] == t[|t| - 1];
          NotTwoNewlines(body, j);
        }
      }
      assert FirstAt(body, LFLF, |t|);
      assert body[..|t|] == t;
      assert body[|t| + 2..] == rest;
      SplitJoin(events[1..]);
      assert events == [t] + events[1..];
    }
  }

  /** The split depends on how much of the body has arrived: with
      "a\r\n\r\nb\n\n" fully buffered the first token is "a\r\n\r\nb", but a
      scanner that has only received the first six bytes cuts "a" at the
      "\r\n\r\n". */
  lemma ScanDependsOnArrival()
    ensures var full: Bytes := [97, CR, LF, CR, LF, 98, LF, LF];
            Scan(full, true) == ScanResult(8, Some(full[..6]))
            && Scan(full[..6], false) == ScanResult(5, Some([97]))
  {
    var full: Bytes := [97, CR, LF, CR, LF, 98, LF, LF];
    forall j: nat | j < 6 ensures !OccursAt(full, LFLF, j) {
      NotTwoNewlines(full, j);
    }
    assert full[6..8] == LFLF;
    assert FirstAt(full, LFLF, 6);
    var part := full[..6];
    assert part == [97, CR, LF, CR, LF, 98];
    forall j: nat ensures !OccursAt(part, LFLF, j) {
      if j + 2 <= 6 {
        NotTwoNewlines(part, j);
      }
    }
    assert part[1..5] == CRLFCRLF;
    assert part[0..4][0] == 97;
    assert FirstAt(part, CRLFCRLF, 1);
    assert part[..1] == [97];
  }

  /** Two adjacent bytes that are not both LF are no blank line. */
  lemma NotTwoNewlines(s: Bytes, j: nat)
    requires j + 2 <= |s| && (s[j] != LF || s[j + 1] != LF)
    ensures !OccursAt(s, LFLF, j)
  {
    assert s[j..j + 2][0] == s[j] && s[j..j + 2][1] == s[j + 1];
  }

  /** One item handed to `yield`: a converted response, an error, or neither. */
  datatype Item = Item(response: Option<Json>, err: Option<Error>)

  /** What the caller's response converter returns: Go's `(*R, error)`. */
  datatype Converted = Converted(response: Option<Json>, err: Option<Error>)

  /** The items a `data` event yields, in order: an unmarshal error if the
      payload is not a JSON object (the converter still runs, on the empty
      map), the converter's error if any, and then the converted response
      even after a converter error. */
  function DataItems(codec: Codec, convert: map<string, Json> -> Converted, prefix: Bytes, data: Bytes)
    : (items: seq<Item>)
    ensures 1 <= |items| <= 3
    ensures items[|items| - 1] == Item(convert(RawResponse(codec, data)).response, None)
    ensures items[0].err.Some? <==> |items| > 1
    ensures var c := convert(RawResponse(codec, data));
            |items| == 1 + (if UnmarshalObject(codec, data).DecodeFailed? then 1 else 0) + (if c.err.Some? then 1 else 0)
    ensures UnmarshalObject(codec, data).DecodeFailed? ==> items[0] == Item(None, Some(StreamUnmarshalFailed(prefix, data)))
    ensures convert(RawResponse(codec, data)).err.Some? ==> items[|items| - 2] == Item(None, convert(RawResponse(codec, data)).err)
    ensures forall k :: 0 <= k < |items| - 1 ==> items[k].response.None? && items[k].err.Some?
  {
    var raw := RawResponse(codec, data);
    var c := convert(raw);
    (if UnmarshalObject(codec, data).DecodeFailed? then [Item(None, Some(StreamUnmarshalFailed(prefix, data)))] else [])
    + (if c.err.Some? then [Item(None, c.err)] else [])
    + [Item(c.response, None)]
  }

  /** The map the converter receives: the decoded object, or the empty map
      when decoding failed or gave `null` (a nil map reads as empty). */
  function RawResponse(codec: Codec, data: Bytes): map<string, Json> {
    var decoded := UnmarshalObject(codec, data);
    if decoded.Decoded? then decoded.fields else map[]
  }

  /** The items one token yields: none for an empty token; for a `data` field
      the data items; for any other field name exactly one error. */
  function TokenItems(codec: Codec, convert: map<string, Json> -> Converted, line: Bytes): (items: seq<Item>)
    ensures |line| == 0 <==> items == []
    ensures |line| > 0 && CutAt(line, COLON).before != DataField ==>
              items == [Item(None, Some(InvalidStreamChunk(CutAt(line, COLON).before, CutAt(line, COLON).after)))]
    ensures |line| > 0 && CutAt(line, COLON).before == DataField ==>
              items[|items| - 1].err.None? && |items| <= 3
    ensures |line| > 0 && CutAt(line, COLON).before == DataField ==>
              items == DataItems(codec, convert, DataField, CutAt(line, COLON).after)
  {
    if |line| == 0 then []
    else
      var cut := CutAt(line, COLON);
      if cut.before == DataField then DataItems(codec, convert, cut.before, cut.after)
      else [Item(None, Some(InvalidStreamChunk(cut.before, cut.after)))]
  }

  /** The items all `tokens` yield, in order, when every yield is accepted. */
  function StreamItems(codec: Codec, convert: map<string, Json> -> Converted, tokens: seq<Bytes>): seq<Item> {
    if tokens == [] then [] else TokenItems(codec, convert, tokens[0]) + StreamItems(codec, convert, tokens[1..])
  }

  lemma {:induction false} StreamItemsAppend(codec: Codec, convert: map<string, Json> -> Converted,
                                             a: seq<Bytes>, b: seq<Bytes>)
    ensures StreamItems(codec, convert, a + b) == StreamItems(codec, convert, a) + StreamItems(codec, convert, b)
  {
    if a == [] {
      assert a + b == b;
    } else {
      assert (a + b)[0] == a[0] && (a + b)[1..] == a[1..] + b;
      StreamItemsAppend(codec, convert, a[1..], b);
      AppendAssoc(TokenItems(codec, convert, a[0]), StreamItems(codec, convert, a[1..]), StreamItems(codec, convert, b));
    }
  }

  /** The caller accepts the yields numbered `from` up to (not including) `to`. */
  predicate AllAccepted(accept: nat -> bool, from: nat, to: nat) {
    forall k: nat :: from <= k < to ==> accept(k)
  }

  /** The items actually handed out when the caller's answer to yield number
      `start + k` is `accept(start + k)`: the iteration ends right after the
      first refused item. */
  function TakeUntilRefused(items: seq<Item>, accept: nat -> bool, start: nat): (r: seq<Item>)
    ensures |r| <= |items| && r == items[..|r|]
    ensures |r| > 0 ==> AllAccepted(accept, start, start + |r| - 1)
    ensures |r| < |items| ==> |r| > 0 && !accept(start + |r| - 1)
    ensures AllAccepted(accept, start, start + |items|) ==> r == items
    decreases |items|
  {
    if items == [] then []
    else if accept(start) then [items[0]] + TakeUntilRefused(items[1..], accept, start + 1)
    else [items[0]]
  }

  /** When every item of `a` is accepted, `b` picks up where `a` left off. */
  lemma {:induction false} TakeUntilRefusedAppend(a: seq<Item>, b: seq<Item>, accept: nat -> bool, start: nat)
    requires AllAccepted(accept, start, start + |a|)
    ensures TakeUntilRefused(a + b, accept, start) == a + TakeUntilRefused(b, accept, start + |a|)
  {
    if a != [] {
      assert accept(start);
      assert (a + b)[0] == a[0] && (a + b)[1..] == a[1..] + b;
      TakeUntilRefusedAppend(a[1..], b, accept, start + 1);
    }
  }

  /** A refusal inside `a` ends the iteration before `b` is reached. */
  lemma {:induction false} TakeUntilRefusedStops(a: seq<Item>, b: seq<Item>, accept: nat -> bool, start: nat)
    requires !AllAccepted(accept, start, start + |a|)
    ensures TakeUntilRefused(a + b, accept, start) == TakeUntilRefused(a, accept, start)
  {
    if a != [] {
      assert (a + b)[1..] == a[1..] + b;
      if accept(start) {
        assert !AllAccepted(accept, start + 1, start + 1 + |a[1..]|);
        TakeUntilRefusedStops(a[1..], b, accept, start + 1);
      }
    }
  }

  /** A refusal inside `token`, after all of `before` was accepted, ends
      the iteration inside `token`. */
  lemma TakeUntilRefusedInside(before: seq<Item>, token: seq<Item>, after: seq<Item>, accept: nat -> bool)
    requires AllAccepted(accept, 0, |before|) && !AllAccepted(accept, |before|, |before| + |token|)
    ensures TakeUntilRefused(before + (token + after), accept, 0) == before + TakeUntilRefused(token, accept, |before|)
  {
    TakeUntilRefusedAppend(before, token + after, accept, 0);
    TakeUntilRefusedStops(token, after, accept, |before|);
  }

  /** The scanner over a response body and the body's close count. */
  class ResponseStream {
    /** The body bytes the scanner has not consumed. */
    var rest: Bytes
    /** How many times the body has been closed. */
    var closed: nat

    constructor (body: Bytes)
      ensures rest == body && closed == 0
    {
      rest := body;
      closed := 0;
    }

    /** `Scan()` then `Bytes()`: the next token, or None once the body is used up. */
    method NextToken() returns (token: Option<Bytes>)
      modifies this
      ensures old(rest) == [] <==> token.None?
      ensures token.None? ==> rest == old(rest)
      ensures token.Some? ==> SplitAll(old(rest)) == [token.value] + SplitAll(rest) && |rest| < |old(rest)|
      ensures closed == old(closed)
    {
      if rest == [] {
        return None;
      }
      var r := Scan(rest, true);
      token := r.token;
      rest := rest[r.advance..];
    }

    method Close()
      modifies this
      ensures closed == old(closed) + 1 && rest == old(rest)
    {
      closed := closed + 1;
    }
  }

  /** Go's `deserializeStreamResponse`: a non-2xx status becomes an API error;
      otherwise a scanner over the body. A body read error ends the body
      early and is otherwise only logged, so `body` is what was read. */
  method DeserializeStreamResponse(resp: Response, codec: Codec) returns (r: Result<ResponseStream, Error>)
    ensures !ApiClient.HttpStatusOk(resp.statusCode) ==> r == Err(ApiClient.NewAPIError(resp, codec))
    ensures ApiClient.HttpStatusOk(resp.statusCode) ==>
              r.Ok? && fresh(r.value) && r.value.rest == resp.body && r.value.closed == 0
  {
    if !ApiClient.HttpStatusOk(resp.statusCode) {
      return Err(ApiClient.NewAPIError(resp, codec));
    }
    var rs := new ResponseStream(resp.body);
    return Ok(rs);
  }

  /** The body of the iteration loop for one token: the items it yields, in
      order, up to the first one the caller refuses. */
  method EmitToken(line: Bytes, codec: Codec, convert: map<string, Json> -> Converted, accept: nat -> bool,
                   before: seq<Item>)
    returns (after: seq<Item>, stop: bool)
    ensures after == before + TakeUntilRefused(TokenItems(codec, convert, line), accept, |before|)
    ensures stop <==> !AllAccepted(accept, |before|, |before| + |TokenItems(codec, convert, line)|)
  {
    if |line| == 0 {
      return before, false;
    }
    var cut := CutAt(line, COLON);
    if cut.before == DataField {
      after, stop := EmitData(cut.before, cut.after, codec, convert, accept, before);
    } else {
      after := before + [Item(None, Some(InvalidStreamChunk(cut.before, cut.after)))];
      stop := !accept(|after| - 1);
      if stop {
        TakeUntilRefusedAt(TokenItems(codec, convert, line), accept, |before|, 1);
      }
    }
  }

  /** The `data` case of the loop body: unmarshal, convert, yield. */
  method EmitData(prefix: Bytes, data: Bytes, codec: Codec, convert: map<string, Json> -> Converted,
                  accept: nat -> bool, before: seq<Item>)
    returns (after: seq<Item>, stop: bool)
    ensures after == before + TakeUntilRefused(DataItems(codec, convert, prefix, data), accept, |before|)
    ensures stop <==> !AllAccepted(accept, |before|, |before| + |DataItems(codec, convert, prefix, data)|)
  {
    ghost var items := DataItems(codec, convert, prefix, data);
    ghost var start := |before|;
    after := before;
    var decoded := UnmarshalObject(codec, data);
    var raw: map<string, Json> := map[];
    if decoded.Decoded? {
      raw := decoded.fields;
    }
    var c := convert(raw);
    assert raw == RawResponse(codec, data);
    if decoded.DecodeFailed? {
      after := after + [Item(None, Some(StreamUnmarshalFailed(prefix, data)))];
      assert after == before + items[..1];
      YieldAt(items, accept, start, 1);
      if !accept(|after| - 1) {
        return after, true;
      }
    }
    if c.err.Some? {
      after := after + [Item(None, c.err)];
      assert after == before + items[..|after| - start];
      YieldAt(items, accept, start, |after| - start);
      if !accept(|after| - 1) {
        return after, true;
      }
    }
    after := after + [Item(c.response, None)];
    assert after == before + items;
    YieldAt(items, accept, start, |items|);
    assert |after| - 1 == start + |items| - 1;
    stop := !accept(|after| - 1);
  }

  /** The caller's answer to the n-th item of `items`, after n - 1 accepted
      ones: a refusal ends the iteration there; an acceptance extends the
      accepted run, to the whole of `items` at the last one. */
  lemma YieldAt(items: seq<Item>, accept: nat -> bool, start: nat, n: nat)
    requires 0 < n <= |items| && AllAccepted(accept, start, start + n - 1)
    ensures !accept(start + n - 1) ==>
              TakeUntilRefused(items, accept, start) == items[..n] && !AllAccepted(accept, start, start + |items|)
    ensures accept(start + n - 1) ==> AllAccepted(accept, start, start + n)
    ensures n == |items| && accept(start + n - 1) ==> TakeUntilRefused(items, accept, start) == items
    ensures n == |items| ==> (accept(start + n - 1) <==> AllAccepted(accept, start, start + |items|))
  {
    if !accept(start + n - 1) {
      TakeUntilRefusedAt(items, accept, start, n);
    }
  }

  /** A refusal at the n-th item, after n - 1 accepted ones, ends the
      iteration there. */
  lemma {:induction false} TakeUntilRefusedAt(items: seq<Item>, accept: nat -> bool, start: nat, n: nat)
    requires 0 < n <= |items|
    requires AllAccepted(accept, start, start + n - 1) && !accept(start + n - 1)
    ensures TakeUntilRefused(items, accept, start) == items[..n]
  {
    if n > 1 {
      TakeUntilRefusedAt(items[1..], accept, start + 1, n - 1);
      assert items[..n] == [items[0]] + items[1..][..n - 1];
    }
  }

  /** A single token yields its own items. */
  lemma StreamItemsOne(codec: Codec, convert: map<string, Json> -> Converted, line: Bytes)
    ensures StreamItems(codec, convert, [line]) == TokenItems(codec, convert, line)
  {
    assert [line][1..] == [];
  }

  /** The items of the tokens before, at and after one token. */
  lemma StreamItemsSplit(codec: Codec, convert: map<string, Json> -> Converted,
                         done: seq<Bytes>, line: Bytes, later: seq<Bytes>)
    ensures StreamItems(codec, convert, done + ([line] + later))
            == StreamItems(codec, convert, done) + (TokenItems(codec, convert, line) + StreamItems(codec, convert, later))
  {
    StreamItemsAppend(codec, convert, done, [line] + later);
    StreamItemsAppend(codec, convert, [line], later);
    StreamItemsOne(codec, convert, line);
  }

  /** A token whose items are all accepted extends the tokens done by one. */
  lemma AcceptedTokenExtends(codec: Codec, convert: map<string, Json> -> Converted, accept: nat -> bool,
                             done: seq<Bytes>, line: Bytes)
    requires AllAccepted(accept, |StreamItems(codec, convert, done)|,
                         |StreamItems(codec, convert, done)| + |TokenItems(codec, convert, line)|)
    ensures var before := StreamItems(codec, convert, done);
            before + TakeUntilRefused(TokenItems(codec, convert, line), accept, |before|)
            == StreamItems(codec, convert, done + [line])
  {
    StreamItemsAppend(codec, convert, done, [line]);
    StreamItemsOne(codec, convert, line);
  }

  /** Go's `iterateResponseStream`, run to the end: the items handed to the
      caller are those of every token in order, up to the first refused one,
      and the body is closed exactly once. */
  method IterateResponseStream(rs: ResponseStream, codec: Codec, convert: map<string, Json> -> Converted,
                               accept: nat -> bool)
    returns (yielded: seq<Item>)
    modifies rs
    ensures yielded == TakeUntilRefused(StreamItems(codec, convert, SplitAll(old(rs.rest))), accept, 0)
    ensures rs.closed == old(rs.closed) + 1
  {
    ghost var done: seq<Bytes> := [];
    yielded := [];
    while true
      invariant SplitAll(old(rs.rest)) == done + SplitAll(rs.rest)
      invariant yielded == StreamItems(codec, convert, done)
      invariant AllAccepted(accept, 0, |yielded|)
      invariant rs.closed == old(rs.closed)
      decreases |rs.rest|
    {
      var token := rs.NextToken();
      if token.None? {
        assert done == SplitAll(old(rs.rest));
        break;
      }
      var line := token.value;
      ghost var later := SplitAll(rs.rest);
      var stop;
      yielded, stop := EmitToken(line, codec, convert, accept, yielded);
      if stop {
        StreamItemsSplit(codec, convert, done, line, later);
        TakeUntilRefusedInside(StreamItems(codec, convert, done), TokenItems(codec, convert, line),
                               StreamItems(codec, convert, later), accept);
        break;
      }
      AcceptedTokenExtends(codec, convert, accept, done, line);
      AppendAssoc(done, [line], later);
      done := done + [line];
    }
    rs.Close();
  }
}
