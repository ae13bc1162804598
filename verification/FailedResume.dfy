/**
 A page whose resume request failed numbers its events from 0 whatever the session's log holds
 (apps/web/lib/session-client.ts, apps/web/app/interview/[sessionId]/page.tsx). What that does
 to the cursor the end request is sealed with, and to runs.
 */
module FailedResume {
  import opened SessionClient
  import opened Outbox
  import opened RunAttribution
  import opened Wrappers

  // ----- A new key -----

  function Longest(events: seq<ClientEvent>): nat {
    if events == [] then 0
    else
      var rest, last := Longest(events[..|events| - 1]), |events[|events| - 1].key|;
      if last > rest then last else rest
  }

  function Key(length: nat): string {
    seq(length, _ => 'k')
  }

  lemma {:induction false} LongKeyIsNew(events: seq<ClientEvent>, key: string)
    requires |key| > Longest(events)
    ensures !HasKey(events, key)
  {
    if events != [] {
      LongKeyIsNew(events[..|events| - 1], key);
      assert forall i :: 0 <= i < |events| - 1 ==> events[i] == events[..|events| - 1][i];
    }
  }

  // ----- Cursors that are not sealed -----

  /** A run that starts at number `first` of a session with this log. */
  ghost predicate StartsAt(h: History, log0: seq<ClientEvent>, first: nat, codeRevision: int) {
    IsRun(h) && h.log0 == log0 && h.first == first && h.codeRevision == codeRevision
  }

  /** Whatever happens, every cursor that was resolved is sealed. */
  ghost predicate AlwaysSeals(log0: seq<ClientEvent>, first: nat, codeRevision: int) {
    forall h, n: nat :: StartsAt(h, log0, first, codeRevision) && n < |h.states| ==> IsSealed(h, n)
  }

  ghost function Chatting(first: nat, codeRevision: int, said: seq<ClientEvent>): State {
    Fresh(first, codeRevision).(clientSeq := first + |said|, outbox := said, connected := true, sent := said, enqueued := said)
  }

  /** The page connects and reports `count` events, none of which has arrived yet. */
  lemma {:induction false} Chats(log0: seq<ClientEvent>, first: nat, codeRevision: int, count: nat)
    returns (h: History, said: seq<ClientEvent>)
    requires IsNumbered(log0) && KeysDiffer(log0)
    ensures StartsAt(h, log0, first, codeRevision) && |said| == count
    ensures Last(h) == System(Chatting(first, codeRevision, said), Server(log0, None, [], false))
    decreases count
  {
    hide KeysDiffer;
    if count == 0 {
      h, said := History(log0, first, codeRevision, [], [Start(log0, first, codeRevision)]), [];
      h := Longer(h, Open);
    } else {
      h, said := Chats(log0, first, codeRevision, count - 1);
      var key := Key(Longest(log0 + said) + 1);
      LongKeyIsNew(log0 + said, key);
      h := Longer(h, Say("", key));
      said := said + [ClientEvent(first + count - 1, key, Speech(""))];
    }
  }

  /** The events reported are numbered from `first` on, under keys that are new. */
  lemma ChatIsNumbered(h: History, log0: seq<ClientEvent>, first: nat, codeRevision: int, said: seq<ClientEvent>)
    requires StartsAt(h, log0, first, codeRevision)
    requires Last(h) == System(Chatting(first, codeRevision, said), Server(log0, None, [], false))
    ensures IsNumberedFrom(said, first) && KeysDiffer(log0 + said)
  {
    InvHolds(h, |h.steps|);
  }

  /** Only the event that carries the number due arrives; it is accepted, and acknowledged. */
  lemma DueIsAccepted(c: State, log0: seq<ClientEvent>, first: nat, said: seq<ClientEvent>)
    requires IsNumbered(log0) && IsNumberedFrom(said, first) && KeysDiffer(log0 + said)
    requires first < |log0| && |said| == |log0| - first + 1 && c.sent == said
    ensures var last := |said| - 1; var due := said[last];
            Next(System(c, Server(log0, None, [], false)), ToServer(last)) ==
            System(c, Server(log0 + [due], Some(|log0|), [Ack(|log0|, |log0|)], false))
  {
    var last := |said| - 1;
    LatestOfNumbered(log0);
    assert said[last].clientSeq == |log0|;
    forall i | 0 <= i < |log0| ensures log0[i].key != said[last].key && log0[i].clientSeq != |log0| {
      assert (log0 + said)[i] == log0[i] && (log0 + said)[|log0| + last] == said[last];
    }
  }

  /** Its acknowledgement lets the next wait resolve at once. */
  lemma WaitResolves(c: State, v: Server, at: nat, codeKey: string, notesKey: string)
    requires v.replies == [Ack(at, at)] && c.clientSeq == at + 1 && c.pendingCode.None? && c.pendingNotes.None?
    ensures var s := Next(Next(System(c, v), ToClient(0)), Wait(codeKey, notesKey));
            s.server == v && s.client.enqueued == c.enqueued && at in s.client.resolved
  {
  }

  lemma TwoNewKeys(s: System, log0: seq<ClientEvent>) returns (k: string, l: string)
    ensures KeysAreNew(s, log0, [k, l])
  {
    var length := Longest(log0 + s.client.enqueued) + 1;
    k, l := Key(length), Key(length + 1);
    LongKeyIsNew(log0 + s.client.enqueued, k);
    LongKeyIsNew(log0 + s.client.enqueued, l);
    assert |k| != |l|;
  }

  /**
   From below the end of the log: as many events as it takes to reach the number that is due,
   of which only that one arrives. The next wait resolves past all the others, which can never
   be accepted.
   */
  lemma UnsealedFromBelow(log0: seq<ClientEvent>, first: nat, codeRevision: int) returns (h: History)
    requires IsNumbered(log0) && KeysDiffer(log0) && first < |log0|
    ensures StartsAt(h, log0, first, codeRevision) && !IsSealed(h, |h.steps|)
  {
    var said: seq<ClientEvent>;
    h, said := Chats(log0, first, codeRevision, |log0| - first + 1);
    ChatIsNumbered(h, log0, first, codeRevision, said);
    hide Next, KeysDiffer, KeysAreNew;
    var c, due := Chatting(first, codeRevision, said), said[|said| - 1];
    DueIsAccepted(c, log0, first, said);
    ByLength(Last(h), log0, []);
    h := Longer(h, ToServer(|said| - 1));
    ByLength(Last(h), log0, []);
    h := Longer(h, ToClient(0));
    var k, l := TwoNewKeys(Last(h), log0);
    WaitResolves(c, Server(log0 + [due], Some(|log0|), [Ack(|log0|, |log0|)], false), |log0|, k, l);
    h := Longer(h, Wait(k, l));
    FirstIsNotSealed(h, log0, said, due);
  }

  lemma FirstIsNotSealed(h: History, log0: seq<ClientEvent>, said: seq<ClientEvent>, due: ClientEvent)
    requires |h.states| == |h.steps| + 1 && h.log0 == log0 && KeysDiffer(log0 + said) && |said| >= 2 && due == said[|said| - 1]
    requires said[0].clientSeq <= due.clientSeq == |log0|
    requires Last(h).client.enqueued == said && Last(h).server.log == log0 + [due] && |log0| in Last(h).client.resolved
    ensures !IsSealed(h, |h.steps|)
  {
    var all := log0 + said;
    assert all[|log0|] == said[0] && all[|all| - 1] == due;
    forall i | 0 <= i < |log0| + 1 ensures (log0 + [due])[i] != said[0] {
      assert i < |log0| ==> all[i] == (log0 + [due])[i];
    }
    assert said[0] in all;
  }

  /**
   Every resolved cursor of every run is sealed if and only if the page's first number is not
   below the end of the session's log.
   */
  lemma SealedExactlyFromTheEndOn(log0: seq<ClientEvent>, first: nat, codeRevision: int)
    requires IsNumbered(log0) && KeysDiffer(log0)
    ensures AlwaysSeals(log0, first, codeRevision) <==> first >= |log0|
  {
    hide IsSealed, KeysDiffer, IsRun;
    if first >= |log0| {
      forall h, n: nat | StartsAt(h, log0, first, codeRevision) && n < |h.states| ensures IsSealed(h, n) {
        StepsAndStates(h);
        ResolvedMeansAccepted(h, n);
      }
    } else {
      var h := UnsealedFromBelow(log0, first, codeRevision);
      StepsAndStates(h);
    }
  }

  lemma StepsAndStates(h: History)
    requires IsRun(h)
    ensures |h.states| == |h.steps| + 1
  {
  }

  // ----- Runs that find no code -----

  function Asked(n: nat, input: string, key: string): ClientEvent {
    ClientEvent(n, key, RunRequested(0, input))
  }

  lemma AskSteps(v: Server, input: string)
    ensures var r, q := Asked(0, input, Key(3)), Asked(1, input, Key(6));
            && Next(System(Fresh(0, 0), v), Open) == System(Chatting(0, 0, []), v)
            && Next(System(Chatting(0, 0, []), v), Run(input, Key(1), Key(2), Key(3))) == System(Chatting(0, 0, [r]), v)
            && Next(System(Chatting(0, 0, [r]), v), Run(input, Key(4), Key(5), Key(6))) == System(Chatting(0, 0, [r, q]), v)
  {
  }

  lemma SecondIsAccepted(delta: ClientEvent, input: string)
    requires delta.clientSeq == 0 && delta.key == Key(7)
    ensures var r, q := Asked(0, input, Key(3)), Asked(1, input, Key(6));
            Next(System(Chatting(0, 0, [r, q]), Server([delta], None, [], false)), ToServer(1)).server.log == [delta, q]
  {
    assert Latest([delta]) == 0 by { LatestOfNumbered([delta]); }
    assert |Key(7)| != |Key(6)|;
  }

  lemma ByLength(s: System, log0: seq<ClientEvent>, keys: seq<string>)
    requires forall i, j :: 0 <= i < j < |keys| ==> |keys[i]| < |keys[j]|
    requires forall e, i :: e in log0 + s.client.enqueued && 0 <= i < |keys| ==> |e.key| != |keys[i]|
    ensures KeysAreNew(s, log0, keys)
  {
    forall i | 0 <= i < |keys| ensures !HasKey(log0 + s.client.enqueued, keys[i]) {
      var all := log0 + s.client.enqueued;
      forall j | 0 <= j < |all| ensures all[j].key != keys[i] { assert all[j] in all; }
    }
  }

  lemma AsksTwice(delta: ClientEvent, input: string) returns (h: History)
    requires delta.clientSeq == 0 && |delta.key| == 7
    ensures StartsAt(h, [delta], 0, 0)
    ensures Last(h) == System(Chatting(0, 0, [Asked(0, input, Key(3)), Asked(1, input, Key(6))]), Server([delta], None, [], false))
  {
    hide Next, KeysAreNew;
    AskSteps(Server([delta], None, [], false), input);
    h := History([delta], 0, 0, [], [Start([delta], 0, 0)]);
    ByLength(Last(h), [delta], []);
    h := Longer(h, Open);
    ByLength(Last(h), [delta], [Key(1), Key(2), Key(3)]);
    h := Longer(h, Run(input, Key(1), Key(2), Key(3)));
    ByLength(Last(h), [delta], [Key(4), Key(5), Key(6)]);
    h := Longer(h, Run(input, Key(4), Key(5), Key(6)));
  }

  /** On a session with code, a page that failed to resume asks for runs under a revision the server has left behind. */
  lemma FailedResumeFindsNoCode(text: string, input: string) returns (h: History)
    ensures StartsAt(h, [ClientEvent(0, Key(7), CodeDelta(1, text))], 0, 0) && WellRevised(h.log0)
    ensures var log := Last(h).server.log;
            && |log| == 2 && log[1].payload == RunRequested(0, input)
            && Fold(log[..1]).text == text && CodeAt(Fold(log[..1]), 0).None?
  {
    var delta, q := ClientEvent(0, Key(7), CodeDelta(1, text)), Asked(1, input, Key(6));
    h := AsksTwice(delta, input);
    hide Next, KeysAreNew;
    SecondIsAccepted(delta, input);
    ByLength(Last(h), [delta], []);
    h := Longer(h, ToServer(1));
    assert [delta, q][..1] == [delta];
    assert IsRevised([delta], 0);
  }
}
