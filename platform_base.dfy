/**
 * The helpers shared by the platform-to-task converters
 * (common/platform_to_task_converter/base.py): the batched download loop
 * that feeds every downloaded response to a callback and counts the
 * outcomes, and the percent-decoding of file names taken from URLs.
 *
 * The network is an oracle: the response (or its absence) for the k-th
 * URL is an input. The callback is a function of the state it updates, so
 * the converters can thread their own state through the downloads.
 */
module PlatformToTaskBase {
  import opened Wrappers
  import opened Sorting
  import opened Numbers
  import opened Text

  /** Parallel download threads per batch (COUNT_DOWNLOAD_FILES). */
  const COUNT_DOWNLOAD_FILES: int := 20

  /** What process_callback did with one response: returned a boolean, or raised. */
  datatype Outcome = Returned(ok: bool) | Raised

  /**
   * The progress of parallel_download after some URLs: the callbacks'
   * state, the two counters, the positions of the responses closed so far,
   * and which URLs counted as successful.
   */
  datatype Progress<S> = Progress(state: S, successful: nat, failed: nat, closed: seq<nat>, succeeded: seq<bool>)

  /** Handles the k-th URL: a missing response fails; otherwise the callback decides, and the response is closed. */
  function Step<S, U, R>(p: Progress<S>, k: nat, url: U, response: Option<R>, callback: (S, U, R) -> (S, Outcome)): (q: Progress<S>)
  {
    match response
    case None => p.(failed := p.failed + 1, succeeded := p.succeeded + [false])
    case Some(resp) =>
      var after := callback(p.state, url, resp);
      if after.1 == Returned(true) then
        Progress(after.0, p.successful + 1, p.failed, p.closed + [k], p.succeeded + [true])
      else
        Progress(after.0, p.successful, p.failed + 1, p.closed + [k], p.succeeded + [false])
  }

  /** The first n URLs handled one after another, in list order. */
  function Downloads<S, U, R>(urls: seq<U>, responses: seq<Option<R>>, callback: (S, U, R) -> (S, Outcome), init: S, n: nat): (p: Progress<S>)
    requires n <= |urls| == |responses|
  {
    if n == 0 then Progress(init, 0, 0, [], [])
    else Step(Downloads(urls, responses, callback, init, n - 1), n - 1, urls[n - 1], responses[n - 1], callback)
  }

  /** Whether the k-th URL counts as successful: it got a response and the callback returned True on it. */
  predicate Succeeds<S, U, R>(urls: seq<U>, responses: seq<Option<R>>, callback: (S, U, R) -> (S, Outcome), init: S, k: nat)
    requires k < |urls| == |responses|
  {
    responses[k].Some? &&
    callback(Downloads(urls, responses, callback, init, k).state, urls[k], responses[k].value).1 == Returned(true)
  }

  /** The number of true values. */
  function CountTrue(bs: seq<bool>): (c: nat)
    ensures c <= |bs|
  {
    if bs == [] then 0 else CountTrue(bs[..|bs| - 1]) + (if bs[|bs| - 1] then 1 else 0)
  }

  /** After n URLs: successful + failed == n, and successful counts the URLs marked successful. */
  lemma {:induction false} DownloadsCount<S, U, R>(urls: seq<U>, responses: seq<Option<R>>, callback: (S, U, R) -> (S, Outcome), init: S, n: nat)
    requires n <= |urls| == |responses|
    ensures var p := Downloads(urls, responses, callback, init, n);
      p.successful + p.failed == n && |p.succeeded| == n && p.successful == CountTrue(p.succeeded)
  {
    if n > 0 {
      DownloadsCount(urls, responses, callback, init, n - 1);
      var p := Downloads(urls, responses, callback, init, n);
      var q := Downloads(urls, responses, callback, init, n - 1);
      assert p.succeeded[..n - 1] == q.succeeded;
    }
  }

  /** A URL is marked successful exactly when it got a response and its callback returned True. */
  lemma {:induction false} DownloadsSucceeded<S, U, R>(urls: seq<U>, responses: seq<Option<R>>, callback: (S, U, R) -> (S, Outcome), init: S, n: nat)
    requires n <= |urls| == |responses|
    ensures |Downloads(urls, responses, callback, init, n).succeeded| == n
    ensures forall k :: 0 <= k < n ==>
      (Downloads(urls, responses, callback, init, n).succeeded[k] <==> Succeeds(urls, responses, callback, init, k))
  {
    if n > 0 {
      DownloadsSucceeded(urls, responses, callback, init, n - 1);
      var p := Downloads(urls, responses, callback, init, n);
      var q := Downloads(urls, responses, callback, init, n - 1);
      assert forall k :: 0 <= k < n - 1 ==> p.succeeded[k] == q.succeeded[k];
    }
  }

  /** Exactly the responses that arrived have been closed, each once, in URL order. */
  lemma {:induction false} DownloadsClosed<S, U, R>(urls: seq<U>, responses: seq<Option<R>>, callback: (S, U, R) -> (S, Outcome), init: S, n: nat)
    requires n <= |urls| == |responses|
    ensures var p := Downloads(urls, responses, callback, init, n);
      && (forall k :: 0 <= k < n ==> (k in p.closed <==> responses[k].Some?))
      && (forall i, j :: 0 <= i < j < |p.closed| ==> p.closed[i] < p.closed[j])
      && (forall i :: 0 <= i < |p.closed| ==> p.closed[i] < n)
  {
    if n > 0 {
      DownloadsClosed(urls, responses, callback, init, n - 1);
    }
  }

  /** With no URLs nothing is downloaded: (0, 0). */
  lemma NoUrls<S, U, R>(callback: (S, U, R) -> (S, Outcome), init: S)
    ensures var p := Downloads([], [], callback, init, 0);
      p.successful == 0 && p.failed == 0 && p.closed == [] && p.state == init
  {
  }

  /** The batches `urls[i:i + size]` for i in range(0, len(urls), size). */
  function Batches<T>(s: seq<T>, size: nat): (r: seq<seq<T>>)
    requires size >= 1
    decreases |s|
  {
    if s == [] then [] else [s[..Min(size, |s|)]] + Batches(s[Min(size, |s|)..], size)
  }

  /** The batches, flattened, give back the URL list in order. */
  lemma {:induction false} BatchesFlatten<T>(s: seq<T>, size: nat)
    requires size >= 1
    ensures Flatten(Batches(s, size)) == s
    decreases |s|
  {
    if s != [] {
      var m := Min(size, |s|);
      BatchesFlatten(s[m..], size);
      assert s[..m] + s[m..] == s;
    }
  }

  /** Each batch holds between 1 and size URLs. */
  lemma {:induction false} BatchesSizes<T>(s: seq<T>, size: nat)
    requires size >= 1
    ensures forall b :: b in Batches(s, size) ==> 1 <= |b| <= size
    decreases |s|
  {
    if s != [] {
      BatchesSizes(s[Min(size, |s|)..], size);
    }
  }

  /** There are (len - 1) // size + 1 batches, and none for an empty list. */
  lemma {:induction false} BatchesCount<T>(s: seq<T>, size: nat)
    requires size >= 1
    ensures |Batches(s, size)| == if s == [] then 0 else (|s| - 1) / size + 1
    decreases |s|
  {
    if s != [] {
      var m := Min(size, |s|);
      BatchesCount(s[m..], size);
      if |s| > size {
        DivShift(|s| - size - 1, size);
      } else {
        DivUnique(|s| - 1, size, 0, |s| - 1);
      }
    }
  }

  lemma MulAtLeast(x: int, d: int)
    requires x >= 1 && d > 0
    ensures x * d >= d
    decreases x
  {
    if x > 1 {
      MulAtLeast(x - 1, d);
      assert x * d == (x - 1) * d + d;
    }
  }

  lemma DivUnique(n: int, d: int, q: int, r: int)
    requires d > 0 && 0 <= r < d && n == q * d + r
    ensures n / d == q
  {
    var q', r' := n / d, n % d;
    assert n == q' * d + r';
    assert (q' - q) * d == r - r';
    if q' > q {
      MulAtLeast(q' - q, d);
    } else if q' < q {
      MulAtLeast(q - q', d);
    }
  }

  lemma DivShift(a: nat, b: nat)
    requires b >= 1
    ensures (a + b) / b == a / b + 1
  {
    assert a == (a / b) * b + a % b;
    assert a + b == (a / b + 1) * b + a % b;
    DivUnique(a + b, b, a / b + 1, a % b);
  }

  /**
   * parallel_download: URLs are handled batch by batch, max_workers * 10
   * per batch; a URL whose download gave no response, or whose callback
   * returned False or raised, counts as failed, and every response is
   * closed once its callback has finished. A max_workers of 0 makes
   * range() raise; a negative one makes the batch loop empty.
   */
  method ParallelDownload<S, U, R>(urls: seq<U>, responses: seq<Option<R>>, callback: (S, U, R) -> (S, Outcome), init: S, maxWorkers: int)
    returns (r: Result<(nat, nat)>, state: S, closed: seq<nat>)
    requires |responses| == |urls|
    ensures maxWorkers == 0 ==> r.Err? && state == init && closed == []
    ensures maxWorkers < 0 ==> r == Ok((0, 0)) && state == init && closed == []
    ensures maxWorkers > 0 ==>
      var p := Downloads(urls, responses, callback, init, |urls|);
      r == Ok((p.successful, p.failed)) && state == p.state && closed == p.closed
  {
    var batchSize := maxWorkers * 10;
    if batchSize == 0 {
      return Err("ValueError: range() arg 3 must not be zero"), init, [];
    }
    if batchSize < 0 {
      return Ok((0, 0)), init, [];
    }
    var successful, failed := 0, 0;
    state, closed := init, [];
    ghost var succeeded: seq<bool> := [];
    var i := 0;
    while i < |urls|
      invariant 0 <= i
      invariant Progress(state, successful, failed, closed, succeeded) == Downloads(urls, responses, callback, init, Min(i, |urls|))
    {
      var batch := urls[i..Min(i + batchSize, |urls|)];
      var j := 0;
      while j < |batch|
        invariant 0 <= j <= |batch|
        decreases |batch| - j
        invariant Progress(state, successful, failed, closed, succeeded) == Downloads(urls, responses, callback, init, i + j)
      {
        var k := i + j;
        match responses[k] {
        case None =>
          failed := failed + 1;
          succeeded := succeeded + [false];
        case Some(resp) =>
          var after := callback(state, batch[j], resp);
          state := after.0;
          if after.1 == Returned(true) {
            successful := successful + 1;
            succeeded := succeeded + [true];
          } else {
            failed := failed + 1;
            succeeded := succeeded + [false];
          }
          closed := closed + [k];
        }
        j := j + 1;
      }
      i := i + batchSize;
    }
    return Ok((successful, failed)), state, closed;
  }

  /**
   * urllib.parse.unquote: every "%" followed by two hexadecimal digits
   * becomes the character whose code they spell; every other character is
   * kept.
   */
  function Unquote(s: string): (r: string)
    ensures |r| <= |s|
    decreases |s|
  {
    if s == [] then []
    else if s[0] == '%' && |s| >= 3 && IsHexDigit(s[1]) && IsHexDigit(s[2]) then
      [(HexValue(s[1]) * 16 + HexValue(s[2])) as char] + Unquote(s[3..])
    else [s[0]] + Unquote(s[1..])
  }

  /** Percent-encoding of every character below 256, as "%XX" with upper-case digits. */
  function Quote(s: string): (r: string)
    requires forall i :: 0 <= i < |s| ==> s[i] as int < 256
    ensures |r| == 3 * |s|
  {
    if s == [] then [] else ['%', HexDigit(s[0] as int / 16), HexDigit(s[0] as int % 16)] + Quote(s[1..])
  }

  /**
   * decode_filename: the unquoted name. A name given as None makes unquote
   * raise; the exception is caught and None is returned.
   */
  function DecodeFilename(name: Option<string>): (r: Option<string>)
    ensures r.None? <==> name.None?
    ensures name.Some? && '%' !in name.value ==> r == name
  {
    match name
    case None => None
    case Some(s) =>
      assert '%' !in s ==> Unquote(s) == s by {
        if '%' !in s {
          UnquotePlain(s);
        }
      }
      Some(Unquote(s))
  }

  /** A name without "%" is left as it is. */
  lemma {:induction false} UnquotePlain(s: string)
    requires '%' !in s
    ensures Unquote(s) == s
    decreases |s|
  {
    if s != [] {
      assert '%' !in s[1..];
      UnquotePlain(s[1..]);
    }
  }

  /** Decoding undoes percent-encoding: any name survives the round trip. */
  lemma {:induction false} UnquoteQuote(s: string)
    requires forall i :: 0 <= i < |s| ==> s[i] as int < 256
    ensures Unquote(Quote(s)) == s
  {
    if s != [] {
      var q := Quote(s);
      assert q[0] == '%' && IsHexDigit(q[1]) && IsHexDigit(q[2]);
      assert HexValue(q[1]) * 16 + HexValue(q[2]) == s[0] as int;
      assert q[3..] == Quote(s[1..]);
      UnquoteQuote(s[1..]);
    }
  }

  /** decode_filename of a percent-encoded name gives the name back. */
  lemma DecodeQuoted(s: string)
    requires forall i :: 0 <= i < |s| ==> s[i] as int < 256
    ensures DecodeFilename(Some(Quote(s))) == Some(s)
  {
    UnquoteQuote(s);
  }
}
