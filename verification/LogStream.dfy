// The live feed of a job: a reader that tails the job's files, against a
// writer that appends to them and then saves a terminal status.

module LogStream {
  import opened Models
  import opened Sse
  import Serde

  const LOOKS: nat := 1200
  const SILENCE: nat := 30

  // What one turn of the reader finds: the status, and after that the files.
  datatype View = View(status: JobStatus, log: string, text: string)

  function LogRead(views: seq<View>, n: nat): string
    requires n <= |views|
  {
    if n == 0 then "" else views[n - 1].log
  }

  function TextRead(views: seq<View>, n: nat): string
    requires n <= |views|
  {
    if n == 0 then "" else views[n - 1].text
  }

  predicate GrowsAt(views: seq<View>, n: nat)
    requires n < |views|
  {
    && LogRead(views, n) <= views[n].log && Free(views[n].log, '\r')
    && TextRead(views, n) <= views[n].text && Free(views[n].text, '\r')
  }

  // Files are only appended to, and hold no carriage return.
  predicate Growing(views: seq<View>) {
    forall n :: 0 <= n < |views| ==> GrowsAt(views, n)
  }

  // --- What is sent ---------------------------------------------------------------

  function From(s: string, k: nat): string {
    if k <= |s| then s[k..] else ""
  }

  function LineEnd(s: string): (n: nat)
    requires s != ""
    ensures 0 < n <= |s| && OneLine(s[..n])
    ensures n < |s| ==> s[n - 1] == '\n'
  {
    if s[0] == '\n' || |s| == 1 then 1 else 1 + LineEnd(s[1..])
  }

  // A text of one line: it may only end in a newline.
  predicate OneLine(s: string) {
    s != "" && forall i :: 0 <= i < |s| - 1 ==> s[i] != '\n'
  }

  // `r` is `s` without the white space at its end.
  predicate Strips(s: string, r: string, space: char -> bool) {
    && r <= s && (forall i :: |r| <= i < |s| ==> space(s[i]))
    && (r == "" || !space(r[|r| - 1]))
  }

  function RightStripped(s: string, space: char -> bool): (r: string)
    ensures Strips(s, r, space)
  {
    if s != "" && space(s[|s| - 1]) then RightStripped(s[..|s| - 1], space) else s
  }

  // Each new line of the log is a message of its own; all new text is one.
  function LineMessages(log: string, space: char -> bool): seq<Message>
    decreases |log|
  {
    if log == "" then []
    else [Message("message", RightStripped(log[..LineEnd(log)], space))] + LineMessages(log[LineEnd(log)..], space)
  }

  function TextMessages(text: string): seq<Message> {
    if text == "" then [] else [Message("text", text)]
  }

  function NewsOf(log: string, text: string, space: char -> bool): seq<Message> {
    LineMessages(log, space) + TextMessages(text)
  }

  // The news of turn `n`.
  function News(views: seq<View>, space: char -> bool, n: nat): seq<Message>
    requires n < |views|
  {
    NewsOf(From(views[n].log, |LogRead(views, n)|), From(views[n].text, |TextRead(views, n)|), space)
  }

  predicate NoNews(views: seq<View>, space: char -> bool, n: nat)
    requires n < |views|
  {
    News(views, space, n) == []
  }

  function AllNews(views: seq<View>, space: char -> bool): seq<seq<Message>> {
    seq(|views|, n requires 0 <= n < |views| => News(views, space, n))
  }

  // The messages of the first `n` turns.
  function Sent(news: seq<seq<Message>>, n: nat): seq<Message>
    requires n <= |news|
  {
    if n == 0 then [] else Sent(news, n - 1) + news[n - 1]
  }

  // The number of turns made, the first `n` of which do not see the end: up to
  // the one that finds the job terminal.
  function Turns(views: seq<View>, n: nat): (r: nat)
    requires n <= |views|
    ensures n <= r <= |views|
    decreases |views| - n
  {
    if n >= LOOKS || n == |views| then n else if views[n].status.Terminal() then n + 1 else Turns(views, n + 1)
  }

  // The job neither waits, nor runs, nor awaits a decision.
  predicate IsOver(status: JobStatus) {
    status !in {Queued, Running, AwaitingApproval}
  }

  predicate Ended(views: seq<View>, n: nat)
    requires n <= |views|
  {
    n > 0 && views[n - 1].status.Terminal()
  }

  // The feed goes on as long as no turn has found the job over, for 1200 turns
  // at most, and no longer.
  lemma {:induction false} TurnsExactly(views: seq<View>, n: nat)
    requires n <= |views| && n <= 1200
    ensures var r := Turns(views, n);
      && n <= r <= 1200 && r <= |views|
      && (forall i :: n <= i < r - 1 ==> !IsOver(views[i].status))
      && (r == 1200 || r == |views| || (n < r && IsOver(views[r - 1].status)))
    decreases |views| - n
  {
    if n < LOOKS && n < |views| && !views[n].status.Terminal() {
      TurnsExactly(views, n + 1);
    }
  }

  // All messages of a feed of `n` turns.
  function Messages(views: seq<View>, space: char -> bool, n: nat): seq<Message>
    requires n <= |views|
  {
    Sent(AllNews(views, space), n)
    + if Ended(views, n) then [Message("done", Serde.StatusName(views[n - 1].status))] else []
  }

  // --- The client -----------------------------------------------------------------

  // The client of `out` has read `ms`, and waits for more.
  predicate Shows(out: string, ms: seq<Message>) {
    var p := Feed(START, out);
    Clean(p) && p.out == ms
  }

  lemma ShowsMessage(out: string, ms: seq<Message>, event: Option<string>, payload: string)
    requires Shows(out, ms) && Plain(event) && Free(payload, '\r')
    ensures Shows(out + Format(event, payload), ms + [Message(EventName(event), payload)])
  {
    FeedSplits(START, out, Format(event, payload));
    MessageIsRead(Feed(START, out), event, payload);
  }

  lemma ShowsKeepalive(out: string, ms: seq<Message>)
    requires Shows(out, ms)
    ensures Shows(out + KEEPALIVE, ms)
  {
    FeedSplits(START, out, KEEPALIVE);
    KeepaliveIsIgnored(Feed(START, out));
  }

  lemma StatusNamesArePlain(status: JobStatus)
    ensures Free(Serde.StatusName(status), '\r')
  {
  }

  lemma EventsArePlain()
    ensures Plain(Some("done")) && EventName(Some("done")) == "done"
    ensures Plain(Some("text")) && EventName(Some("text")) == "text"
  {
  }

  // --- The feed -------------------------------------------------------------------

  lemma Associates(a: seq<Message>, b: seq<Message>, d: seq<Message>)
    ensures a + b + d == a + (b + d)
  {
  }

  lemma FormatIsSomething(event: Option<string>, payload: string)
    ensures |Format(event, payload)| > 0
  {
  }

  method LogMessages(before: string, log: string, space: char -> bool, ghost ms: seq<Message>) returns (out: string)
    requires Shows(before, ms) && Free(log, '\r')
    ensures before <= out && Shows(out, ms + LineMessages(log, space))
    ensures out == before <==> log == ""
  {
    out := before;
    var rest := log;
    ghost var shown := ms;
    while rest != ""
      invariant before <= out && Shows(out, shown) && Free(rest, '\r')
      invariant shown + LineMessages(rest, space) == ms + LineMessages(log, space)
      invariant log == "" ==> rest == "" && out == before
      invariant log != "" ==> rest == log || |before| < |out|
      decreases |rest|
    {
      var n := LineEnd(rest);
      var line := RightStripped(rest[..n], space);
      Associates(shown, [Message("message", line)], LineMessages(rest[n..], space));
      ShowsMessage(out, shown, None, line);
      FormatIsSomething(None, line);
      shown := shown + [Message("message", line)];
      out := out + Format(None, line);
      rest := rest[n..];
    }
    assert shown + [] == shown;
  }

  method TextMessage(before: string, text: string, ghost ms: seq<Message>) returns (out: string)
    requires Shows(before, ms) && Free(text, '\r')
    ensures before <= out && Shows(out, ms + TextMessages(text))
    ensures out == before <==> text == ""
  {
    out := before;
    if text == "" {
      assert ms + [] == ms;
    } else {
      EventsArePlain();
      ShowsMessage(before, ms, Some("text"), text);
      FormatIsSomething(Some("text"), text);
      out := before + Format(Some("text"), text);
    }
  }

  // Reads both files from where the last turn stopped.
  method Drain(before: string, view: View, logPos: nat, textPos: nat, space: char -> bool, ghost ms: seq<Message>)
    returns (out: string, produced: bool)
    requires Shows(before, ms) && Free(view.log, '\r') && Free(view.text, '\r')
    ensures before <= out && (!produced <==> out == before)
    ensures produced <==> NewsOf(From(view.log, logPos), From(view.text, textPos), space) != []
    ensures Shows(out, ms + NewsOf(From(view.log, logPos), From(view.text, textPos), space))
  {
    var log, text := From(view.log, logPos), From(view.text, textPos);
    out := LogMessages(before, log, space, ms);
    out := TextMessage(out, text, ms + LineMessages(log, space));
    Associates(ms, LineMessages(log, space), TextMessages(text));
    produced := log != "" || text != "";
  }

  // The client of the first `k` characters had read the messages of `n` turns.
  predicate HasRead(news: seq<seq<Message>>, out: string, k: nat, n: nat)
    requires n <= |news|
  {
    k <= |out| && Decode(out[..k]) == Sent(news, n)
  }

  // After turn `i`, `marks[i]` characters had been sent.
  ghost predicate Delivered(news: seq<seq<Message>>, out: string, marks: seq<nat>) {
    && |marks| <= |news|
    && forall i :: 0 <= i < |marks| ==> HasRead(news, out, marks[i], i + 1)
  }

  lemma HasReadMore(news: seq<seq<Message>>, out: string, k: nat, n: nat, more: string)
    requires n <= |news| && HasRead(news, out, k, n) && out <= more
    ensures HasRead(news, more, k, n)
  {
    assert more[..k] == out[..k];
  }

  lemma DeliveredMore(news: seq<seq<Message>>, out: string, marks: seq<nat>, more: string)
    requires Delivered(news, out, marks) && out <= more
    ensures Delivered(news, more, marks)
  {
    forall i | 0 <= i < |marks|
      ensures HasRead(news, more, marks[i], i + 1)
    {
      HasReadMore(news, out, marks[i], i + 1, more);
    }
  }

  lemma HasReadAll(news: seq<seq<Message>>, out: string, n: nat)
    requires n <= |news| && Shows(out, Sent(news, n))
    ensures HasRead(news, out, |out|, n)
  {
    assert out[..|out|] == out;
  }

  lemma DeliveredOneMore(news: seq<seq<Message>>, out: string, marks: seq<nat>, more: string)
    requires Delivered(news, out, marks) && out <= more && |marks| < |news|
    requires HasRead(news, more, |more|, |marks| + 1)
    ensures Delivered(news, more, marks + [|more|])
  {
    DeliveredMore(news, out, marks, more);
  }

  // Between two turns, |marks| of which have been made.
  ghost predicate Following(news: seq<seq<Message>>, out: string, marks: seq<nat>) {
    Delivered(news, out, marks) && Shows(out, Sent(news, |marks|))
  }

  lemma FollowingMore(news: seq<seq<Message>>, before: string, sent: seq<nat>, out: string)
    requires Following(news, before, sent) && before <= out && |sent| < |news|
    requires Shows(out, Sent(news, |sent|) + news[|sent|])
    ensures Following(news, out, sent + [|out|])
  {
    HasReadAll(news, out, |sent| + 1);
    DeliveredOneMore(news, before, sent, out);
  }

  // One turn of the reader: everything new in the files is sent.
  method Turn(views: seq<View>, n: nat, before: string, logPos: nat, textPos: nat, space: char -> bool,
      ghost news: seq<seq<Message>>, ghost sent: seq<nat>)
    returns (out: string, produced: bool, ghost marks: seq<nat>)
    requires Growing(views) && news == AllNews(views, space) && Following(news, before, sent) && n == |sent| < |views|
    requires logPos == |LogRead(views, n)| && textPos == |TextRead(views, n)|
    ensures marks == sent + [|out|] && before <= out && (!produced <==> out == before)
    ensures !produced <==> NoNews(views, space, n)
    ensures Following(news, out, marks)
  {
    assert GrowsAt(views, n);
    out, produced := Drain(before, views[n], logPos, textPos, space, Sent(news, n));
    marks := sent + [|out|];
    FollowingMore(news, before, sent, out);
  }

  method KeepAlive(before: string, ghost news: seq<seq<Message>>, ghost marks: seq<nat>) returns (out: string)
    requires Following(news, before, marks)
    ensures Following(news, out, marks) && out == before + KEEPALIVE
  {
    ShowsKeepalive(before, Sent(news, |marks|));
    out := before + KEEPALIVE;
    DeliveredMore(news, before, marks, out);
  }

  method SayDone(before: string, status: JobStatus, ghost ms: seq<Message>) returns (out: string)
    requires Shows(before, ms)
    ensures before <= out && Decode(out) == ms + [Message("done", Serde.StatusName(status))]
  {
    EventsArePlain();
    StatusNamesArePlain(status);
    ShowsMessage(before, ms, Some("done"), Serde.StatusName(status));
    out := before + Format(Some("done"), Serde.StatusName(status));
  }

  // After `n` turns, none of which has seen the end.
  predicate Waiting(views: seq<View>, n: nat)
    requires n <= |views|
  {
    Turns(views, n) == Turns(views, 0) && !Ended(views, n)
  }

  // How a feed of all its turns stands.
  ghost predicate Outcome(views: seq<View>, space: char -> bool, out: string, marks: seq<nat>) {
    && |marks| == Turns(views, 0)
    && Delivered(AllNews(views, space), out, marks)
    && Decode(out) == Messages(views, space, |marks|)
  }

  lemma GivenUp(views: seq<View>, space: char -> bool, out: string, marks: seq<nat>)
    requires Following(AllNews(views, space), out, marks) && |marks| <= |views|
    requires Waiting(views, |marks|) && (|marks| >= LOOKS || |marks| == |views|)
    ensures Outcome(views, space, out, marks) && !Ended(views, Turns(views, 0))
  {
    var ms := Sent(AllNews(views, space), |marks|);
    assert ms + [] == ms;
  }

  lemma WaitsOn(views: seq<View>, n: nat)
    requires n < |views| && n < LOOKS && Waiting(views, n)
    ensures if Ended(views, n + 1) then Turns(views, 0) == n + 1 else Waiting(views, n + 1)
  {
  }

  // --- Silence ----------------------------------------------------------------------

  // However long nothing happens, something is sent within any 31 turns.
  predicate Lively(marks: seq<nat>) {
    forall i, j :: 0 <= i && i + 31 <= j < |marks| ==> marks[i] < marks[j]
  }

  // Nothing has been sent in the last `silent` turns, but something before.
  predicate SilentFor(marks: seq<nat>, out: string, silent: nat) {
    && (forall i :: 0 <= i < |marks| ==> marks[i] <= |out|)
    && forall i :: 0 <= i && i + silent + 1 < |marks| ==> marks[i] < |out|
  }

  lemma StaysLively(sent: seq<nat>, before: string, quiet: nat, out: string)
    requires Lively(sent) && SilentFor(sent, before, quiet) && quiet < 30 && before <= out
    ensures Lively(sent + [|out|])
    ensures if out == before then SilentFor(sent + [|out|], out, quiet + 1) else SilentFor(sent + [|out|], out, 0)
  {
    if out == before {
      assert |out| == |before|;
    } else {
      assert out[..|before|] == before;
      assert |out| == |before| ==> out == before;
      assert |before| < |out|;
    }
  }

  // The last turn `n` has found the job terminal.
  method Finish(views: seq<View>, n: nat, before: string, space: char -> bool, ghost marks: seq<nat>)
    returns (out: string)
    requires n < |views| && |marks| == n + 1 == Turns(views, 0) && Ended(views, n + 1)
    requires Following(AllNews(views, space), before, marks)
    ensures Outcome(views, space, out, marks)
  {
    out := SayDone(before, views[n].status, Sent(AllNews(views, space), n + 1));
    DeliveredMore(AllNews(views, space), before, marks, out);
  }

  // After thirty turns in a row without news the client gets a sign of life.
  method Pause(before: string, quiet: nat, produced: bool, ghost news: seq<seq<Message>>, ghost marks: seq<nat>)
    returns (out: string, silent: nat)
    requires Following(news, before, marks) && quiet < 30
    requires SilentFor(marks, before, if produced then 0 else quiet + 1)
    ensures silent == if produced then 0 else (quiet + 1) % 30
    ensures out == before + if !produced && quiet == 29 then KEEPALIVE else ""
    ensures Following(news, out, marks) && SilentFor(marks, out, silent)
  {
    out, silent := before, if produced then 0 else quiet + 1;
    if silent >= SILENCE {
      silent := 0;
      out := KeepAlive(before, news, marks);
    }
  }

  // The feed between two turns, `n` of which have been made.
  ghost predicate Underway(views: seq<View>, space: char -> bool, n: nat, out: string, logPos: nat, textPos: nat,
      silent: nat, marks: seq<nat>)
    requires n <= |views|
  {
    && n == |marks| && logPos == |LogRead(views, n)| && textPos == |TextRead(views, n)|
    && Following(AllNews(views, space), out, marks) && Waiting(views, n)
    && Lively(marks) && SilentFor(marks, out, silent) && silent < 30
  }

  // Between two turns, or after the last one of a job that is not over.
  ghost predicate Goes(views: seq<View>, space: char -> bool, out: string, marks: seq<nat>)
    requires |marks| <= |views|
  {
    Following(AllNews(views, space), out, marks) && Waiting(views, |marks|) && Lively(marks)
  }

  // After the turn that has found the job over.
  ghost predicate IsThrough(views: seq<View>, space: char -> bool, out: string, marks: seq<nat>) {
    Outcome(views, space, out, marks) && Lively(marks) && Ended(views, Turns(views, 0))
  }

  lemma Starts(views: seq<View>, space: char -> bool)
    ensures Underway(views, space, 0, "", 0, 0, 0, [])
  {
  }

  // One turn, and what is said besides the news.
  method Round(views: seq<View>, n: nat, before: string, logPos: nat, textPos: nat, quiet: nat, space: char -> bool,
      ghost sent: seq<nat>)
    returns (out: string, silent: nat, done: bool, ghost marks: seq<nat>)
    requires Growing(views) && n < |views| && n < LOOKS
    requires Underway(views, space, n, before, logPos, textPos, quiet, sent)
    ensures done == Ended(views, n + 1)
    ensures done ==> IsThrough(views, space, out, marks)
    ensures !done ==> Underway(views, space, n + 1, out, |views[n].log|, |views[n].text|, silent, marks)
    ensures !done ==> silent == if NoNews(views, space, n) then (quiet + 1) % 30 else 0
    ensures !done && NoNews(views, space, n) ==> out == before + if quiet == 29 then KEEPALIVE else ""
  {
    // The status is from before the files: the last reading comes after the
    // last writing.
    ghost var news := AllNews(views, space);
    var produced;
    out, produced, marks := Turn(views, n, before, logPos, textPos, space, news, sent);
    done, silent := views[n].status.Terminal(), 0;
    WaitsOn(views, n);
    StaysLively(sent, before, quiet, out);
    if done {
      out := Finish(views, n, out, space, marks);
      return;
    }
    out, silent := Pause(out, quiet, produced, news, marks);
  }

  // The turns of a feed, up to the one that finds the job terminal.
  method AllTurns(views: seq<View>, space: char -> bool) returns (out: string, done: bool, ghost marks: seq<nat>)
    requires Growing(views)
    ensures done ==> IsThrough(views, space, out, marks)
    ensures !done ==> |marks| <= |views| && (|marks| >= LOOKS || |marks| == |views|) && Goes(views, space, out, marks)
  {
    out, marks, done := "", [], false;
    var logPos: nat, textPos: nat, silent: nat, i: nat := 0, 0, 0, 0;
    Starts(views, space);
    while i < LOOKS && i < |views|
      invariant i <= LOOKS && i <= |views| && !done
      invariant Underway(views, space, i, out, logPos, textPos, silent, marks)
    {
      out, silent, done, marks := Round(views, i, out, logPos, textPos, silent, space, marks);
      if done {
        return;
      }
      logPos, textPos := |views[i].log|, |views[i].text|;
      i := i + 1;
    }
  }

  // The feed, for what its turns find. It ends with `done` at the first turn
  // that finds the job terminal, and gives up after LOOKS turns or when the
  // client leaves.
  method Follow(views: seq<View>, space: char -> bool) returns (out: string, done: bool, ghost marks: seq<nat>)
    requires Growing(views)
    ensures Decode(out) == Messages(views, space, Turns(views, 0))
    ensures done <==> Ended(views, Turns(views, 0))
    ensures Outcome(views, space, out, marks) && Lively(marks)
  {
    out, done, marks := AllTurns(views, space);
    if !done {
      GivenUp(views, space, out, marks);
    }
  }

  // --- What the client has --------------------------------------------------------

  // The text a client puts together.
  function TextOf(ms: seq<Message>): string {
    if ms == [] then "" else TextOf(ms[..|ms| - 1]) + if ms[|ms| - 1].event == "text" then ms[|ms| - 1].data else ""
  }

  lemma {:induction false} TextSplits(a: seq<Message>, b: seq<Message>)
    ensures TextOf(a + b) == TextOf(a) + TextOf(b)
    decreases |b|
  {
    if b == [] {
      assert a + b == a;
    } else {
      assert (a + b)[..|a + b| - 1] == a + b[..|b| - 1];
      TextSplits(a, b[..|b| - 1]);
    }
  }

  lemma {:induction false} LinesAreNoText(log: string, space: char -> bool)
    ensures TextOf(LineMessages(log, space)) == ""
    decreases |log|
  {
    if log != "" {
      var line := Message("message", RightStripped(log[..LineEnd(log)], space));
      LinesAreNoText(log[LineEnd(log)..], space);
      TextSplits([line], LineMessages(log[LineEnd(log)..], space));
    }
  }

  lemma OneText(text: string)
    ensures TextOf(TextMessages(text)) == text
  {
    if text != "" {
      assert TextOf([]) + text == text;
    }
  }

  lemma NewsIsText(log: string, text: string, space: char -> bool)
    ensures TextOf(NewsOf(log, text, space)) == text
  {
    LinesAreNoText(log, space);
    OneText(text);
    TextSplits(LineMessages(log, space), TextMessages(text));
    assert "" + text == text;
  }

  lemma {:induction false} SentText(news: seq<seq<Message>>, n: nat)
    requires n < |news|
    ensures TextOf(Sent(news, n + 1)) == TextOf(Sent(news, n)) + TextOf(news[n])
  {
    TextSplits(Sent(news, n), news[n]);
  }

  // The news of turn `i` continue the text read before to the text read then.
  predicate Continues(views: seq<View>, news: seq<seq<Message>>, i: nat)
    requires i < |news| && |news| == |views|
  {
    TextRead(views, i) + TextOf(news[i]) == views[i].text
  }

  lemma TextGoesOn(text: string, earlier: string)
    requires earlier <= text
    ensures earlier + From(text, |earlier|) == text
  {
  }

  lemma NewsContinue(views: seq<View>, space: char -> bool, i: nat)
    requires i < |views| && GrowsAt(views, i)
    ensures Continues(views, AllNews(views, space), i)
  {
    NewsIsText(From(views[i].log, |LogRead(views, i)|), From(views[i].text, |TextRead(views, i)|), space);
    TextGoesOn(views[i].text, TextRead(views, i));
  }

  // What has been sent is what has been read.
  predicate InStep(views: seq<View>, news: seq<seq<Message>>, n: nat)
    requires n <= |news| && |news| == |views|
  {
    TextOf(Sent(news, n)) == TextRead(views, n)
  }

  lemma StaysInStep(views: seq<View>, news: seq<seq<Message>>, i: nat)
    requires i < |news| && |news| == |views| && InStep(views, news, i) && Continues(views, news, i)
    ensures InStep(views, news, i + 1)
  {
    SentText(news, i);
  }

  predicate StepsUp(p: nat -> bool, i: nat) {
    p(i) ==> p(i + 1)
  }

  lemma {:induction false} ByInduction(p: nat -> bool, n: nat)
    requires p(0) && forall i: nat :: i < n ==> StepsUp(p, i)
    ensures p(n)
    decreases n
  {
    if n > 0 {
      ByInduction(p, n - 1);
      assert StepsUp(p, n - 1);
    }
  }

  lemma SentIsRead(views: seq<View>, news: seq<seq<Message>>, n: nat)
    requires n <= |news| && |news| == |views| && forall i :: 0 <= i < n ==> Continues(views, news, i)
    ensures InStep(views, news, n)
  {
    var p := (i: nat) => i <= |news| && InStep(views, news, i);
    forall i: nat | i < n
      ensures StepsUp(p, i)
    {
      if p(i) {
        StaysInStep(views, news, i);
      }
    }
    ByInduction(p, n);
  }

  // What the turns send is what the file held when it was last read: nothing
  // lost, repeated or out of order.
  lemma SentIsFile(views: seq<View>, space: char -> bool, n: nat)
    requires Growing(views) && n <= |views|
    ensures TextOf(Sent(AllNews(views, space), n)) == TextRead(views, n)
  {
    var news := AllNews(views, space);
    forall i | 0 <= i < |news|
      ensures Continues(views, news, i)
    {
      assert GrowsAt(views, i);
      NewsContinue(views, space, i);
    }
    SentIsRead(views, news, n);
  }

  lemma {:induction false} TextOnlyGrows(a: seq<Message>, b: seq<Message>)
    requires a <= b
    ensures TextOf(a) <= TextOf(b)
  {
    assert b == a + b[|a|..];
    TextSplits(a, b[|a|..]);
  }

  // Whatever part of a feed has arrived, the text in it is a prefix of the
  // text in the whole.
  lemma PartShowsPrefix(out: string, k: nat)
    requires k <= |out|
    ensures TextOf(Decode(out[..k])) <= TextOf(Decode(out))
  {
    assert out == out[..k] + out[k..];
    FeedSplits(START, out[..k], out[k..]);
    DispatchedStays(Feed(START, out[..k]), out[k..]);
    TextOnlyGrows(Decode(out[..k]), Decode(out));
  }

  lemma LessShowsPrefix(out: string, k: nat, m: nat)
    requires k <= m <= |out|
    ensures TextOf(Decode(out[..k])) <= TextOf(Decode(out[..m]))
  {
    PartShowsPrefix(out[..m], k);
    assert out[..m][..k] == out[..k];
  }

  lemma ReadIsFile(views: seq<View>, space: char -> bool, out: string, k: nat, n: nat)
    requires Growing(views) && n <= |views| && HasRead(AllNews(views, space), out, k, n)
    ensures k <= |out| && TextOf(Decode(out[..k])) == TextRead(views, n)
  {
    SentIsFile(views, space, n);
  }

  // At every moment the text the client has is a prefix of what the file held
  // when it was last read, wherever the connection is cut; after a whole turn
  // it is all of that.
  lemma ClientHasPrefix(views: seq<View>, space: char -> bool, out: string, marks: seq<nat>, i: nat, k: nat)
    requires Growing(views) && Delivered(AllNews(views, space), out, marks) && i < |marks| && k <= marks[i]
    ensures TextOf(Decode(out[..k])) <= views[i].text
    ensures k == marks[i] ==> TextOf(Decode(out[..k])) == views[i].text
  {
    ReadIsFile(views, space, out, marks[i], i + 1);
    LessShowsPrefix(out, k, marks[i]);
  }

  lemma NoText(m: Message)
    requires m.event != "text"
    ensures TextOf([m]) == ""
  {
    assert TextOf([]) + "" == "";
  }

  lemma MessagesText(views: seq<View>, space: char -> bool, n: nat)
    requires Growing(views) && n <= |views|
    ensures TextOf(Messages(views, space, n)) == TextRead(views, n)
  {
    var ms := Sent(AllNews(views, space), n);
    SentIsFile(views, space, n);
    if Ended(views, n) {
      var m := Message("done", Serde.StatusName(views[n - 1].status));
      NoText(m);
      TextSplits(ms, [m]);
      assert TextOf(ms) + "" == TextOf(ms);
    } else {
      assert ms + [] == ms;
    }
  }

  // --- The log the client has -----------------------------------------------------

  // What the "message" events carry, in order.
  function Payloads(ms: seq<Message>): seq<string> {
    if ms == [] then []
    else Payloads(ms[..|ms| - 1]) + if ms[|ms| - 1].event == "message" then [ms[|ms| - 1].data] else []
  }

  lemma {:induction false} PayloadsSplit(a: seq<Message>, b: seq<Message>)
    ensures Payloads(a + b) == Payloads(a) + Payloads(b)
    decreases |b|
  {
    if b == [] {
      assert a + b == a;
    } else {
      assert (a + b)[..|a + b| - 1] == a + b[..|b| - 1];
      PayloadsSplit(a, b[..|b| - 1]);
    }
  }

  function Whole(lines: seq<string>): string {
    if lines == [] then "" else Whole(lines[..|lines| - 1]) + lines[|lines| - 1]
  }

  lemma {:induction false} WholeSplits(a: seq<string>, b: seq<string>)
    ensures Whole(a + b) == Whole(a) + Whole(b)
    decreases |b|
  {
    if b == [] {
      assert a + b == a;
    } else {
      assert (a + b)[..|a + b| - 1] == a + b[..|b| - 1];
      WholeSplits(a, b[..|b| - 1]);
    }
  }

  // One payload for each line, stripped.
  ghost predicate Tells(lines: seq<string>, payloads: seq<string>, space: char -> bool) {
    && |lines| == |payloads|
    && forall k :: 0 <= k < |lines| ==> OneLine(lines[k]) && Strips(lines[k], payloads[k], space)
  }

  lemma TellsBoth(a: seq<string>, p: seq<string>, b: seq<string>, q: seq<string>, space: char -> bool)
    requires Tells(a, p, space) && Tells(b, q, space)
    ensures Tells(a + b, p + q, space)
  {
  }

  predicate EndsLine(line: string) {
    line != "" && line[|line| - 1] == '\n'
  }

  // The lines of one reading.
  function LinesIn(log: string): seq<string> {
    if log == "" then [] else [log[..LineEnd(log)]] + LinesIn(log[LineEnd(log)..])
  }

  // They are the reading, cut after each newline.
  lemma {:induction false} LinesAreLines(log: string)
    ensures AreLinesOf(LinesIn(log), log)
    decreases |log|
  {
    if log != "" {
      var n := LineEnd(log);
      var rest := log[n..];
      LinesAreLines(rest);
      FirstLine(log[..n], LinesIn(rest), rest);
      assert log == log[..n] + rest;
      assert LinesIn(log) == [log[..n]] + LinesIn(rest);
    }
  }

  predicate AreLinesOf(lines: seq<string>, log: string) {
    Whole(lines) == log && Cut(lines)
  }

  predicate Cut(lines: seq<string>) {
    forall k :: 0 <= k < |lines| ==> OneLine(lines[k]) && (k < |lines| - 1 ==> EndsLine(lines[k]))
  }

  lemma FirstLine(line: string, lines: seq<string>, rest: string)
    requires AreLinesOf(lines, rest) && OneLine(line) && (rest != "" ==> EndsLine(line))
    ensures AreLinesOf([line] + lines, line + rest)
  {
    WholeSplits([line], lines);
    assert Whole([]) + line == line;
  }

  lemma {:induction false} LinesAreTold(log: string, space: char -> bool)
    ensures Tells(LinesIn(log), Payloads(LineMessages(log, space)), space)
    decreases |log|
  {
    if log != "" {
      var n := LineEnd(log);
      var first := Message("message", RightStripped(log[..n], space));
      LinesAreTold(log[n..], space);
      OnePayload(first, LineMessages(log[n..], space));
      TellsBoth([log[..n]], [first.data], LinesIn(log[n..]), Payloads(LineMessages(log[n..], space)), space);
    }
  }

  lemma OnePayload(m: Message, ms: seq<Message>)
    requires m.event == "message"
    ensures Payloads([m] + ms) == [m.data] + Payloads(ms)
  {
    PayloadsSplit([m], ms);
    assert Payloads([]) + [m.data] == [m.data];
  }

  lemma NewsPayloads(log: string, text: string, space: char -> bool)
    ensures Payloads(NewsOf(log, text, space)) == Payloads(LineMessages(log, space))
  {
    PayloadsSplit(LineMessages(log, space), TextMessages(text));
    assert Payloads([]) == [];
    if text != "" {
      assert TextMessages(text)[..0] == [];
    }
  }

  // The first `n` batches put together.
  function Flat(batches: seq<seq<string>>, n: nat): seq<string>
    requires n <= |batches|
  {
    if n == 0 then [] else Flat(batches, n - 1) + batches[n - 1]
  }

  lemma {:induction false} FlatTells(a: seq<seq<string>>, b: seq<seq<string>>, space: char -> bool, n: nat)
    requires n <= |a| && n <= |b| && forall i :: 0 <= i < n ==> Tells(a[i], b[i], space)
    ensures Tells(Flat(a, n), Flat(b, n), space)
    decreases n
  {
    if n > 0 {
      FlatTells(a, b, space, n - 1);
      TellsBoth(Flat(a, n - 1), Flat(b, n - 1), a[n - 1], b[n - 1], space);
    }
  }

  predicate Adds(batches: seq<seq<string>>, logs: seq<string>, i: nat)
    requires i < |batches| < |logs|
  {
    logs[i] + Whole(batches[i]) == logs[i + 1]
  }

  lemma {:induction false} FlatWhole(batches: seq<seq<string>>, logs: seq<string>, n: nat)
    requires n <= |batches| < |logs| && logs[0] == "" && forall i :: 0 <= i < n ==> Adds(batches, logs, i)
    ensures Whole(Flat(batches, n)) == logs[n]
    decreases n
  {
    if n > 0 {
      FlatWhole(batches, logs, n - 1);
      assert Adds(batches, logs, n - 1);
      WholeSplits(Flat(batches, n - 1), batches[n - 1]);
    }
  }

  // The lines of each reading, which takes what is new in the log.
  function Readings(views: seq<View>): seq<seq<string>> {
    seq(|views|, i requires 0 <= i < |views| => LinesIn(From(views[i].log, |LogRead(views, i)|)))
  }

  function LinesRead(views: seq<View>, n: nat): seq<string>
    requires n <= |views|
  {
    Flat(Readings(views), n)
  }

  function PayloadsOf(news: seq<seq<Message>>): seq<seq<string>> {
    seq(|news|, i requires 0 <= i < |news| => Payloads(news[i]))
  }

  function PayloadsSent(news: seq<seq<Message>>, n: nat): seq<string>
    requires n <= |news|
  {
    Flat(PayloadsOf(news), n)
  }

  predicate SamePayloads(news: seq<seq<Message>>, n: nat)
    requires n <= |news|
  {
    Payloads(Sent(news, n)) == PayloadsSent(news, n)
  }

  lemma NextSame(news: seq<seq<Message>>, n: nat)
    requires n < |news| && SamePayloads(news, n)
    ensures SamePayloads(news, n + 1)
  {
    PayloadsSplit(Sent(news, n), news[n]);
  }

  lemma AlwaysSame(news: seq<seq<Message>>, n: nat)
    requires n <= |news|
    ensures SamePayloads(news, n)
  {
    var p := (i: nat) => i <= |news| && SamePayloads(news, i);
    forall i: nat | i < n
      ensures StepsUp(p, i)
    {
      if p(i) {
        NextSame(news, i);
      }
    }
    ByInduction(p, n);
  }

  lemma NewsTell(views: seq<View>, space: char -> bool, n: nat)
    requires n < |views|
    ensures Tells(Readings(views)[n], Payloads(News(views, space, n)), space)
  {
    var log, text := From(views[n].log, |LogRead(views, n)|), From(views[n].text, |TextRead(views, n)|);
    LinesAreTold(log, space);
    NewsPayloads(log, text, space);
  }

  lemma NewLinesAdd(log: string, before: string)
    requires before <= log
    ensures before + Whole(LinesIn(From(log, |before|))) == log
  {
    LinesAreLines(From(log, |before|));
    TextGoesOn(log, before);
  }

  function Logs(views: seq<View>): seq<string> {
    seq(|views| + 1, i requires 0 <= i <= |views| => LogRead(views, i))
  }

  lemma ReadingAdds(views: seq<View>, i: nat)
    requires i < |views| && GrowsAt(views, i)
    ensures Adds(Readings(views), Logs(views), i)
  {
    NewLinesAdd(views[i].log, LogRead(views, i));
  }

  lemma {:induction false} AddedUp(views: seq<View>, n: nat)
    requires n <= |views| && forall i :: 0 <= i < n ==> Adds(Readings(views), Logs(views), i)
    ensures Whole(LinesRead(views, n)) == Logs(views)[n]
  {
    FlatWhole(Readings(views), Logs(views), n);
  }

  lemma ReadingsAreLog(views: seq<View>, n: nat)
    requires Growing(views) && n <= |views|
    ensures Whole(LinesRead(views, n)) == LogRead(views, n)
  {
    forall i | 0 <= i < n
      ensures Adds(Readings(views), Logs(views), i)
    {
      assert GrowsAt(views, i);
      ReadingAdds(views, i);
    }
    AddedUp(views, n);
  }

  lemma ReadingsAreTold(views: seq<View>, space: char -> bool, n: nat)
    requires Growing(views) && n <= |views|
    ensures Tells(LinesRead(views, n), PayloadsSent(AllNews(views, space), n), space)
  {
    var news := AllNews(views, space);
    forall i | 0 <= i < n
      ensures Tells(Readings(views)[i], PayloadsOf(news)[i], space)
    {
      assert GrowsAt(views, i);
      NewsTell(views, space, i);
    }
    FlatTells(Readings(views), PayloadsOf(news), space, n);
  }

  // The payloads tell the log as read after `n` turns: each line of each
  // reading once, in order, without the white space at its end.
  ghost predicate TellsLog(views: seq<View>, space: char -> bool, n: nat, payloads: seq<string>)
    requires n <= |views|
  {
    Whole(LinesRead(views, n)) == LogRead(views, n) && Tells(LinesRead(views, n), payloads, space)
  }

  // The "message" events of any number of turns do.
  lemma SentIsLog(views: seq<View>, space: char -> bool, n: nat)
    requires Growing(views) && n <= |views|
    ensures TellsLog(views, space, n, Payloads(Sent(AllNews(views, space), n)))
  {
    ReadingsAreLog(views, n);
    ReadingsAreTold(views, space, n);
    AlwaysSame(AllNews(views, space), n);
  }

  // So what the client decodes from a feed cut after turn `i` tells the log as
  // read then, and from a whole feed as last read.
  lemma ClientHasLog(views: seq<View>, space: char -> bool, out: string, marks: seq<nat>, i: nat)
    requires Growing(views) && Delivered(AllNews(views, space), out, marks) && i < |marks|
    ensures marks[i] <= |out| && TellsLog(views, space, i + 1, Payloads(Decode(out[..marks[i]])))
  {
    SentIsLog(views, space, i + 1);
    assert HasRead(AllNews(views, space), out, marks[i], i + 1);
  }

  lemma FeedTellsLog(views: seq<View>, space: char -> bool, out: string, marks: seq<nat>)
    requires Growing(views) && Outcome(views, space, out, marks)
    ensures TellsLog(views, space, |marks|, Payloads(Decode(out)))
  {
    SentIsLog(views, space, |marks|);
    DoneIsNoPayload(views, space, |marks|);
  }

  lemma DoneIsNoPayload(views: seq<View>, space: char -> bool, n: nat)
    requires n <= |views|
    ensures Payloads(Messages(views, space, n)) == Payloads(Sent(AllNews(views, space), n))
  {
    var ms := Sent(AllNews(views, space), n);
    if Ended(views, n) {
      var m := Message("done", Serde.StatusName(views[n - 1].status));
      PayloadsSplit(ms, [m]);
      assert Payloads([]) == [] && [m][..0] == [];
    } else {
      assert ms + [] == ms;
    }
  }

  // What the client puts together from whole lines.
  function Rebuilt(payloads: seq<string>): string {
    if payloads == [] then "" else Rebuilt(payloads[..|payloads| - 1]) + payloads[|payloads| - 1] + "\n"
  }

  // No white space at the end of the line but its newline.
  predicate Trim(line: string, space: char -> bool) {
    EndsLine(line) && (|line| > 1 ==> !space(line[|line| - 2]))
  }

  lemma TrimIsKept(line: string, r: string, space: char -> bool)
    requires space('\n') && OneLine(line) && Trim(line, space) && Strips(line, r, space)
    ensures r + "\n" == line
  {
    assert |r| < |line|;
    assert |line| > 1 ==> |r| >= |line| - 1;
  }

  // So whole lines without other white space at their ends are rebuilt exactly.
  lemma {:induction false} WholeLinesAreRebuilt(lines: seq<string>, payloads: seq<string>, space: char -> bool)
    requires space('\n') && Tells(lines, payloads, space) && forall k :: 0 <= k < |lines| ==> Trim(lines[k], space)
    ensures Rebuilt(payloads) == Whole(lines)
    decreases |lines|
  {
    if lines != [] {
      var n := |lines| - 1;
      WholeLinesAreRebuilt(lines[..n], payloads[..n], space);
      TrimIsKept(lines[n], payloads[n], space);
      assert Rebuilt(payloads[..n]) + payloads[n] + "\n" == Rebuilt(payloads[..n]) + (payloads[n] + "\n");
    }
  }

  predicate SaysDone(ms: seq<Message>) {
    exists i :: 0 <= i < |ms| && ms[i].event == "done"
  }

  lemma NeitherIsDone(a: seq<Message>, b: seq<Message>)
    requires !SaysDone(a) && !SaysDone(b)
    ensures !SaysDone(a + b)
  {
  }

  lemma {:induction false} LinesAreNotDone(log: string, space: char -> bool)
    ensures !SaysDone(LineMessages(log, space))
    decreases |log|
  {
    if log != "" {
      LinesAreNotDone(log[LineEnd(log)..], space);
      NeitherIsDone([Message("message", RightStripped(log[..LineEnd(log)], space))],
                    LineMessages(log[LineEnd(log)..], space));
    }
  }

  lemma NewsIsNotDone(log: string, text: string, space: char -> bool)
    ensures !SaysDone(NewsOf(log, text, space))
  {
    LinesAreNotDone(log, space);
    NeitherIsDone(LineMessages(log, space), TextMessages(text));
  }

  lemma {:induction false} SentSaysNothing(news: seq<seq<Message>>, n: nat)
    requires n <= |news| && forall i :: 0 <= i < n ==> !SaysDone(news[i])
    ensures !SaysDone(Sent(news, n))
    decreases n
  {
    if n > 0 {
      SentSaysNothing(news, n - 1);
      NeitherIsDone(Sent(news, n - 1), news[n - 1]);
    }
  }

  // The end is said once, as the last message, and exactly when a turn has
  // found the job terminal.
  lemma {:induction false} EndIsSaidLast(views: seq<View>, space: char -> bool, n: nat)
    requires n <= |views|
    ensures var ms := Messages(views, space, n);
      forall i :: 0 <= i < |ms| ==>
        (ms[i].event == "done" <==> n > 0 && IsOver(views[n - 1].status) && i == |ms| - 1)
  {
    var news := AllNews(views, space);
    forall i | 0 <= i < n
      ensures !SaysDone(news[i])
    {
      NewsIsNotDone(From(views[i].log, |LogRead(views, i)|), From(views[i].text, |TextRead(views, i)|), space);
    }
    SentSaysNothing(news, n);
    OneEnd(Sent(news, n), Messages(views, space, n), Ended(views, n));
  }

  lemma OneEnd(before: seq<Message>, ms: seq<Message>, ended: bool)
    requires !SaysDone(before)
    requires if ended then |ms| == |before| + 1 && ms[|before|].event == "done" && before <= ms else ms == before
    ensures forall i :: 0 <= i < |ms| ==> (ms[i].event == "done" <==> ended && i == |ms| - 1)
  {
    forall i | 0 <= i < |before|
      ensures ms[i].event != "done"
    {
      assert before[i].event != "done";
    }
  }

  // --- The writer -----------------------------------------------------------------

  // What happens to a job while it is followed.
  datatype Write = Delta(text: string) | Line(text: string) | Save(status: JobStatus)

  // The stream file, the log file and the saved status after some writes.
  function TextFile(h: seq<Write>): string {
    if h == [] then "" else TextFile(h[..|h| - 1]) + if h[|h| - 1].Delta? then h[|h| - 1].text else ""
  }

  function LogFile(h: seq<Write>): string {
    if h == [] then "" else LogFile(h[..|h| - 1]) + if h[|h| - 1].Line? then h[|h| - 1].text else ""
  }

  function Status(first: JobStatus, h: seq<Write>): JobStatus {
    if h == [] then first else if h[|h| - 1].Save? then h[|h| - 1].status else Status(first, h[..|h| - 1])
  }

  // Nothing is appended to the stream file after a terminal status was saved.
  predicate SavesLast(first: JobStatus, h: seq<Write>) {
    forall t, u :: 0 <= t <= u < |h| && Status(first, h[..t]).Terminal() ==> !h[u].Delta?
  }

  // After how many writes a turn reads the status, and after how many the
  // files.
  datatype Look = Look(check: nat, drain: nat)

  predicate Interleaved(h: seq<Write>, looks: seq<Look>) {
    && (forall i :: 0 <= i < |looks| ==> looks[i].check <= looks[i].drain <= |h|)
    && (forall i :: 0 < i < |looks| ==> looks[i - 1].drain <= looks[i].check)
  }

  function ViewOf(first: JobStatus, h: seq<Write>, look: Look): View
    requires look.check <= |h| && look.drain <= |h|
  {
    View(Status(first, h[..look.check]), LogFile(h[..look.drain]), TextFile(h[..look.drain]))
  }

  // What the turns find, for any way reader and writer are interleaved.
  function ViewsOf(first: JobStatus, h: seq<Write>, looks: seq<Look>): seq<View>
    requires Interleaved(h, looks)
  {
    seq(|looks|, i requires 0 <= i < |looks| => ViewOf(first, h, looks[i]))
  }

  lemma {:induction false} FilesGrow(h: seq<Write>, a: nat, b: nat)
    requires a <= b <= |h|
    ensures TextFile(h[..a]) <= TextFile(h[..b]) && LogFile(h[..a]) <= LogFile(h[..b])
    decreases b
  {
    if a < b {
      assert h[..b][..b - 1] == h[..b - 1];
      FilesGrow(h, a, b - 1);
    }
  }

  lemma {:induction false} TextIsComplete(first: JobStatus, h: seq<Write>, t: nat, u: nat)
    requires SavesLast(first, h) && t <= u <= |h| && Status(first, h[..t]).Terminal()
    ensures TextFile(h[..u]) == TextFile(h[..t])
    decreases u
  {
    if t < u {
      assert h[..u][..u - 1] == h[..u - 1];
      TextIsComplete(first, h, t, u - 1);
    }
  }

  lemma CleanFiles(h: seq<Write>, drain: nat)
    requires drain <= |h| && Free(TextFile(h), '\r') && Free(LogFile(h), '\r')
    ensures Free(TextFile(h[..drain]), '\r') && Free(LogFile(h[..drain]), '\r')
  {
    FilesGrow(h, drain, |h|);
    assert h[..|h|] == h;
  }

  lemma ViewsGrow(first: JobStatus, h: seq<Write>, looks: seq<Look>)
    requires Interleaved(h, looks) && Free(TextFile(h), '\r') && Free(LogFile(h), '\r')
    ensures Growing(ViewsOf(first, h, looks))
  {
    var views := ViewsOf(first, h, looks);
    forall n | 0 <= n < |views|
      ensures GrowsAt(views, n)
    {
      CleanFiles(h, looks[n].drain);
      if n > 0 {
        FilesGrow(h, looks[n - 1].drain, looks[n].drain);
      }
    }
  }

  // The whole feed, for every history of the job and every interleaving: each
  // part of it shows a prefix of what the job ever writes, and once `done` has
  // been said it shows all of that.
  lemma FeedIsPrefix(first: JobStatus, h: seq<Write>, looks: seq<Look>, space: char -> bool, out: string,
      marks: seq<nat>, k: nat)
    requires Interleaved(h, looks) && Free(TextFile(h), '\r') && Free(LogFile(h), '\r')
    requires Outcome(ViewsOf(first, h, looks), space, out, marks) && k <= |out|
    ensures TextOf(Decode(out[..k])) <= TextFile(h)
    ensures SavesLast(first, h) && Ended(ViewsOf(first, h, looks), |marks|) ==> TextOf(Decode(out)) == TextFile(h)
  {
    ViewsGrow(first, h, looks);
    MessagesText(ViewsOf(first, h, looks), space, |marks|);
    PartShowsPrefix(out, k);
    ReadIsPrefix(first, h, looks, |marks|);
  }

  lemma ReadIsPrefix(first: JobStatus, h: seq<Write>, looks: seq<Look>, n: nat)
    requires Interleaved(h, looks) && n <= |looks|
    ensures TextRead(ViewsOf(first, h, looks), n) <= TextFile(h)
    ensures SavesLast(first, h) && Ended(ViewsOf(first, h, looks), n) ==>
              TextRead(ViewsOf(first, h, looks), n) == TextFile(h)
  {
    if n > 0 {
      FilesGrow(h, looks[n - 1].drain, |h|);
      assert h[..|h|] == h;
      if SavesLast(first, h) && Ended(ViewsOf(first, h, looks), n) {
        ReadAfterEnd(first, h, looks[n - 1]);
      }
    }
  }

  lemma ReadAfterEnd(first: JobStatus, h: seq<Write>, look: Look)
    requires SavesLast(first, h) && look.check <= look.drain <= |h| && Status(first, h[..look.check]).Terminal()
    ensures TextFile(h[..look.drain]) == TextFile(h)
  {
    TextIsComplete(first, h, look.check, look.drain);
    TextIsComplete(first, h, look.check, |h|);
    assert h[..|h|] == h;
  }
}
