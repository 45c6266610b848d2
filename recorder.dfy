/** The response recorder (`responseRecorder` in main.go): a decorator around an
    `http.ResponseWriter` that forwards every call unchanged and keeps two counters on the
    side, the last status code set and the number of body bytes written.

    The underlying writer is modelled as a Sink that records, in order, every call it
    receives. What a real writer answers to `Write` (how many bytes it took, whether it
    failed) is outside the model; a Sink is given those answers when it is built. */
module Recorder {
  import opened Wrappers
  import opened GoErrors
  import opened Bytes

  /** One call that reached a writer: `WriteHeader(code)` or `Write(data)`. */
  datatype Event = WroteHeader(code: int) | Wrote(data: seq<byte>)

  /** What a writer answers to one `Write`: the count it accepted and its error. */
  datatype WriteReply = WriteReply(n: int, err: Option<GoError>)

  /** The two fields a recorder updates: `status` and `numBytes`. */
  datatype Counters = Counters(status: int, numBytes: int)

  /** A recorder as `responseRecorder{ResponseWriter: w}` builds it: both fields zero. */
  const Fresh: Counters := Counters(0, 0)

  /** The effect of one forwarded call on a recorder's counters. */
  function Observe(c: Counters, e: Event): Counters {
    match e
    case WroteHeader(code) => c.(status := code)
    case Wrote(data) => c.(numBytes := c.numBytes + |data|)
  }

  /** The counters after a recorder has forwarded the calls `es`, in order. */
  function ObserveAll(c: Counters, es: seq<Event>): Counters
    decreases |es|
  {
    if es == [] then c else ObserveAll(Observe(c, es[0]), es[1..])
  }

  /** The code of the last `WriteHeader` among `es`, or `otherwise` when there is none. */
  function LastCode(es: seq<Event>, otherwise: int): (r: int)
    ensures (forall i :: 0 <= i < |es| ==> es[i].Wrote?) ==> r == otherwise
    ensures forall k ::
      0 <= k < |es| && es[k].WroteHeader? && (forall j :: k < j < |es| ==> es[j].Wrote?) ==> r == es[k].code
  {
    if es == [] then otherwise
    else match es[|es| - 1]
      case WroteHeader(code) => code
      case Wrote(_) =>
        var front := es[..|es| - 1];
        assert forall j :: 0 <= j < |front| ==> front[j] == es[j];
        LastCode(front, otherwise)
  }

  /** The number of body bytes among `es`. */
  function TotalBytes(es: seq<Event>): nat {
    if es == [] then 0
    else TotalBytes(es[..|es| - 1]) + match es[|es| - 1] case Wrote(d) => |d| case WroteHeader(_) => 0
  }

  lemma {:induction false} ObserveAllAppend(c: Counters, es: seq<Event>, e: Event)
    ensures ObserveAll(c, es + [e]) == Observe(ObserveAll(c, es), e)
    decreases |es|
  {
    if es != [] {
      assert (es + [e])[1..] == es[1..] + [e];
      ObserveAllAppend(Observe(c, es[0]), es[1..], e);
    }
  }

  /** After any sequence of calls, a recorder's status is the code of the last WriteHeader
      (the earlier status when there was none: later calls overwrite, the first does not
      stick), and its byte count has grown by exactly the bytes passed to Write. */
  lemma {:induction false} ObserveAllIsLastCodeAndTotal(c: Counters, es: seq<Event>)
    ensures ObserveAll(c, es) == Counters(LastCode(es, c.status), c.numBytes + TotalBytes(es))
    decreases |es|
  {
    if es != [] {
      var front := es[..|es| - 1];
      assert es == front + [es[|es| - 1]];
      ObserveAllIsLastCodeAndTotal(c, front);
      ObserveAllAppend(c, front, es[|es| - 1]);
    }
  }

  /** A fresh recorder that only ever sees Write calls keeps status 0. */
  lemma WritesOnlyKeepStatusZero(es: seq<Event>)
    requires forall i :: 0 <= i < |es| ==> es[i].Wrote?
    ensures ObserveAll(Fresh, es).status == 0
    ensures ObserveAll(Fresh, es).numBytes == TotalBytes(es)
  {
    ObserveAllIsLastCodeAndTotal(Fresh, es);
  }

  /** The underlying `http.ResponseWriter`: an append-only trace of the calls it received,
      the answers it will give to Write, and its header map. */
  class Sink {
    var trace: seq<Event>
    var replies: seq<WriteReply>
    var header: map<string, seq<string>>

    constructor (replies: seq<WriteReply>)
      ensures trace == [] && this.replies == replies && header == map[]
    {
      trace := [];
      this.replies := replies;
      header := map[];
    }

    /** The answer to the next Write of `b`: the next scripted reply, or, once the script
        is used up, acceptance of all of `b`. */
    function NextReply(b: seq<byte>): WriteReply
      reads this
    {
      if replies == [] then WriteReply(|b|, None) else replies[0]
    }

    /** The script left after one Write. */
    function RemainingReplies(): seq<WriteReply>
      reads this
    {
      if replies == [] then [] else replies[1..]
    }

    method Write(b: seq<byte>) returns (n: int, err: Option<GoError>)
      modifies this
      ensures trace == old(trace) + [Wrote(b)]
      ensures WriteReply(n, err) == old(NextReply(b))
      ensures replies == old(RemainingReplies())
      ensures header == old(header)
    {
      var reply := NextReply(b);
      trace := trace + [Wrote(b)];
      replies := RemainingReplies();
      n, err := reply.n, reply.err;
    }

    method WriteHeader(code: int)
      modifies this
      ensures trace == old(trace) + [WroteHeader(code)]
      ensures replies == old(replies) && header == old(header)
    {
      trace := trace + [WroteHeader(code)];
    }
  }

  /** `responseRecorder`: wraps a writer, forwards every call to it, and records the status
      and the byte count. */
  class ResponseRecorder {
    const inner: Sink
    var status: int
    var numBytes: int

    /** `responseRecorder{ResponseWriter: w}`. */
    constructor (w: Sink)
      ensures inner == w && Recorded() == Fresh
    {
      inner := w;
      status := 0;
      numBytes := 0;
    }

    /** The recorder's two fields as one value. */
    function Recorded(): Counters
      reads this
    {
      Counters(status, numBytes)
    }

    /** `Header()` delegates to the underlying writer's header map. */
    method Header() returns (h: map<string, seq<string>>)
      ensures h == inner.header
    {
      h := inner.header;
    }

    /** `Write(b)`: counts `len(b)` whatever the underlying writer does with it, forwards `b`
        unchanged, and hands back the underlying writer's answer unchanged. The status is
        untouched. */
    method Write(b: seq<byte>) returns (n: int, err: Option<GoError>)
      modifies this, inner
      ensures Recorded() == Observe(old(Recorded()), Wrote(b))
      ensures status == old(status) && numBytes == old(numBytes) + |b|
      ensures inner.trace == old(inner.trace) + [Wrote(b)]
      ensures WriteReply(n, err) == old(inner.NextReply(b))
      ensures inner.replies == old(inner.RemainingReplies()) && inner.header == old(inner.header)
    {
      numBytes := numBytes + |b|;
      n, err := inner.Write(b);
    }

    /** `WriteHeader(code)`: overwrites the recorded status on every call and forwards the
        call once. The byte count is untouched. */
    method WriteHeader(code: int)
      modifies this, inner
      ensures Recorded() == Observe(old(Recorded()), WroteHeader(code))
      ensures status == code && numBytes == old(numBytes)
      ensures inner.trace == old(inner.trace) + [WroteHeader(code)]
      ensures inner.replies == old(inner.replies) && inner.header == old(inner.header)
    {
      status := code;
      inner.WriteHeader(code);
    }
  }

  /** A caller of the class: two WriteHeader calls and a Write through a fresh recorder leave
      the second code recorded, count the bytes, and reach the writer in order. */
  method RecordTwoHeadersAndABody(w: Sink, body: seq<byte>) returns (rec: ResponseRecorder)
    requires w.trace == []
    modifies w
    ensures rec.inner == w && rec.status == 404 && rec.numBytes == |body|
    ensures w.trace == [WroteHeader(200), WroteHeader(404), Wrote(body)]
  {
    rec := new ResponseRecorder(w);
    rec.WriteHeader(200);
    rec.WriteHeader(404);
    var _, _ := rec.Write(body);
  }

  /** Any sequence of calls made through a fresh recorder reaches the writer unchanged and in
      order, and leaves the recorder's fields at the fold of those calls: the last status set
      (0 if none) and the total number of body bytes. */
  method ReplayThroughRecorder(w: Sink, es: seq<Event>) returns (rec: ResponseRecorder)
    requires w.trace == []
    modifies w
    ensures rec.inner == w && w.trace == es
    ensures rec.Recorded() == ObserveAll(Fresh, es)
    ensures rec.status == LastCode(es, 0) && rec.numBytes == TotalBytes(es)
  {
    rec := new ResponseRecorder(w);
    var i := 0;
    while i < |es|
      invariant 0 <= i <= |es|
      invariant rec.inner == w && w.trace == es[..i]
      invariant rec.Recorded() == ObserveAll(Fresh, es[..i])
    {
      ObserveAllAppend(Fresh, es[..i], es[i]);
      match es[i] {
        case WroteHeader(code) => rec.WriteHeader(code);
        case Wrote(data) => var _, _ := rec.Write(data);
      }
      assert es[..i + 1] == es[..i] + [es[i]];
      i := i + 1;
    }
    assert es[..i] == es;
    ObserveAllIsLastCodeAndTotal(Fresh, es);
  }
}
