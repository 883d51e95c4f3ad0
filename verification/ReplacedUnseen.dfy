/** A history in which a replaced file is never noticed, command by command. */
module ReplacedUnseen {
  import opened Seqs
  import opened Utf8
  import opened JobFiles
  import opened CheckEvents
  import opened LiveSession
  import opened LogDelivery
  import opened LiveRun
  import opened ReplacedFiles

  /** A history that begins with `h`. */
  lemma HistoryFirst(w: World, h: Happening, rest: seq<Happening>)
    requires May(w, h) && IsHistory(Happens(w, h), rest)
    ensures IsHistory(w, [h] + rest) && AfterAll(w, [h] + rest) == AfterAll(Happens(w, h), rest)
  {
    assert ([h] + rest)[1..] == rest;
  }

  lemma {:induction false} HistoryAppend(w: World, first: seq<Happening>, rest: seq<Happening>)
    requires IsHistory(w, first) && IsHistory(AfterAll(w, first), rest)
    ensures IsHistory(w, first + rest) && AfterAll(w, first + rest) == AfterAll(AfterAll(w, first), rest)
    decreases |first|
  {
    if first == [] {
      assert first + rest == rest;
    } else {
      HistoryAppend(Happens(w, first[0]), first[1..], rest);
      assert first + rest == [first[0]] + (first[1..] + rest);
      HistoryFirst(w, first[0], first[1..] + rest);
    }
  }

  /** `n` frames cross the gateway and reach the page. */
  function Transfer(n: nat): seq<Happening> {
    if n == 0 then [] else [Act(Relay), Act(Deliver)] + Transfer(n - 1)
  }

  /** The page after these frames. */
  function Heard(client: Client, frames: seq<Frame>): Client
    decreases |frames|
  {
    if frames == [] then client else Heard(OnMessage(client, frames[0]), frames[1..])
  }

  lemma {:induction false} Transfers(w: World)
    requires w.relayOut == []
    ensures IsHistory(w, Transfer(|w.agentOut|))
    ensures AfterAll(w, Transfer(|w.agentOut|)) == w.(agentOut := [], client := Heard(w.client, w.agentOut))
    decreases |w.agentOut|
  {
    hide OnMessage;
    if w.agentOut != [] {
      var rest := Transfer(|w.agentOut| - 1);
      var w1 := Happens(w, Act(Relay));
      var w2 := Happens(w1, Act(Deliver));
      assert w2 == w.(agentOut := w.agentOut[1..], client := OnMessage(w.client, w.agentOut[0]));
      Transfers(w2);
      HistoryFirst(w1, Act(Deliver), rest);
      HistoryFirst(w, Act(Relay), [Act(Deliver)] + rest);
      assert [Act(Relay)] + ([Act(Deliver)] + rest) == Transfer(|w.agentOut|);
    }
  }

  lemma {:induction false} HeardConcat(client: Client, a: seq<Frame>, b: seq<Frame>)
    ensures Heard(client, a + b) == Heard(Heard(client, a), b)
    decreases |a|
  {
    if a == [] {
      assert a + b == b;
    } else {
      HeardConcat(OnMessage(client, a[0]), a[1..], b);
      assert (a + b)[1..] == a[1..] + b;
    }
  }

  lemma {:induction false} QuietHeard(client: Client, frames: seq<Frame>)
    requires NoLog(frames)
    ensures Heard(client, frames).out == client.out
    decreases |frames|
  {
    if frames != [] {
      assert NoLog(frames[1..]);
      QuietHeard(OnMessage(client, frames[0]), frames[1..]);
    }
  }

  /** "a" is all the job has written, stderr goes to the same file, and the page has shown nothing yet. */
  ghost predicate OneByte(w: World, job: JobData) {
    && Initial(w) && job.stdoutExpanded != "" && job.stderrExpanded == ""
    && job.stdoutExpanded in w.fs.managed && job.stdoutExpanded in w.fs.files
    && w.fs.files[job.stdoutExpanded] == [97]
  }

  const StdoutOnly := ClientStream(1, ["a"], [0, 1])

  lemma FirstPush(fs: FileSystem, job: JobData)
    requires job.stdoutExpanded != "" && job.stderrExpanded == ""
    requires job.stdoutExpanded in fs.managed && job.stdoutExpanded in fs.files
    requires fs.files[job.stdoutExpanded] == [97]
    ensures var streams := [StreamState(Stdout, 0, None), StreamState(Stderr, 0, None)];
            var (streams', frames, ok) := PushStreams(fs, job, streams);
            && |frames| == 2 && frames[0].LogFrame? && frames[0].stream == Stdout && !frames[0].merged
            && frames[0].chunk.text == "a" && frames[0].chunk.nextOffset == 1 && !frames[0].chunk.rotated
            && frames[1].LogFrame? && frames[1].stream == Stderr
  {
    var out, err := StreamState(Stdout, 0, None), StreamState(Stderr, 0, None);
    var file: Bytes := [97];
    assert file[0..1] == file && Decode(file) == "a" by { OneLetter(97); }
    var p, q := PushStream(fs, job, out), PushStream(fs, job, err);
    assert [out, err][1..] == [err] && [err][1..] == [];
    assert PushStreams(fs, job, [err]).1 == q.frames + [];
    assert PushStreams(fs, job, [out, err]).1 == p.frames + PushStreams(fs, job, [err]).1;
  }

  lemma OneLetter(b: Byte)
    requires b < 0x80
    ensures Decode([b]) == [b as char]
  {
    assert [b][1..] == [];
  }

  lemma HeardTwo(client: Client, a: Frame, b: Frame)
    ensures Heard(client, [a, b]) == OnMessage(OnMessage(client, a), b)
  {
    hide OnMessage;
    assert [a, b][1..] == [b] && [b][1..] == [];
    assert Heard(OnMessage(client, a), [b]) == OnMessage(OnMessage(client, a), b);
  }

  /** The page once it has heard all frames of a connection's first round. */
  lemma FirstRound(s: Session, fs: FileSystem, store: seq<Event>, client: Client)
    requires s.job.stdoutExpanded != "" && s.job.stderrExpanded == ""
    requires s.job.stdoutExpanded in fs.managed && s.job.stdoutExpanded in fs.files
    requires fs.files[s.job.stdoutExpanded] == [97] && Log in s.channels && !s.logPaused
    requires s.logStreams == [StreamState(Stdout, 0, None), StreamState(Stderr, 0, None)] && client.out == Nothing
    ensures Heard(client, Service(s, fs, store, NotDue).1).out == StdoutOnly
  {
    var (s1, f1) := RefreshJob(s, NotDue);
    var (s2, f2) := ServeChecks(s1, store);
    var (s3, f3) := ServeLog(s2, fs);
    BeforeLog(s, store, NotDue);
    FirstPush(fs, s.job);
    hide PushStreams, ServeChecks;
    HeardConcat(client, f1 + f2, f3);
    QuietHeard(client, f1 + f2);
    var client' := Heard(client, f1 + f2);
    assert f3 == [f3[0], f3[1]];
    HeardTwo(client', f3[0], f3[1]);
    assert OnMessage(client', f3[0]).out == AppendLog(Nothing, f3[0].chunk, false) == StdoutOnly;
  }

  /** A connection opens and the agent hears the subscription. */
  lemma OpensAndHears(w: World, job: JobData)
    requires OneByte(w, job)
    ensures var moves := [Act(Open(job)), Act(Hear(0.0))];
            IsHistory(w, moves)
            && var w' := AfterAll(w, moves);
               && w'.fs == w.fs && w'.store == w.store && w'.job == job && w'.client == w.client
               && w'.uplink == [] && w'.relayOut == [] && NoLog(w'.agentOut)
               && w'.session.Some? && w'.session.value.job == job && Log in w'.session.value.channels
               && !w'.session.value.logPaused
               && w'.session.value.logStreams == [StreamState(Stdout, 0, None), StreamState(Stderr, 0, None)]
  {
    assert PathsKept(w, job) by { InitialOrderly(w); }
    var w1 := Happens(w, Act(Open(job)));
    SubscribeWorks(w1.session.value, w.client, w.client.checksCursor, w.store, 0.0);
    hide Handle;
    HistoryFirst(w1, Act(Hear(0.0)), []);
    HistoryFirst(w, Act(Open(job)), [Act(Hear(0.0))]);
  }

  /** Then it serves one round, whose frames will show the page the byte. */
  lemma OpensAndServes(w: World, job: JobData) returns (w3: World)
    requires OneByte(w, job)
    ensures var moves := [Act(Open(job)), Act(Hear(0.0))] + [Act(Tick(NotDue))];
            IsHistory(w, moves) && AfterAll(w, moves) == w3
    ensures w3.relayOut == [] && w3.fs == w.fs && w3.job == job && w3.client == w.client && w3.session.Some?
    ensures Heard(w3.client, w3.agentOut).out == StdoutOnly
  {
    var moves := [Act(Open(job)), Act(Hear(0.0))];
    OpensAndHears(w, job);
    var w2 := AfterAll(w, moves);
    w3 := Happens(w2, Act(Tick(NotDue)));
    var s, quiet := w2.session.value, w2.agentOut;
    var frames := Service(s, w.fs, w2.store, NotDue).1;
    assert w3.agentOut == quiet + frames && w3.job == job;
    hide Service, IsHistory, AfterAll;
    QuietHeard(w.client, quiet);
    HeardConcat(w.client, quiet, frames);
    FirstRound(s, w.fs, w2.store, Heard(w.client, quiet));
    ServesOne(w2);
    HistoryAppend(w, moves, [Act(Tick(NotDue))]);
  }

  lemma ServesOne(w: World)
    requires May(w, Act(Tick(NotDue)))
    ensures IsHistory(w, [Act(Tick(NotDue))]) && AfterAll(w, [Act(Tick(NotDue))]) == Happens(w, Act(Tick(NotDue)))
  {
    HistoryFirst(w, Act(Tick(NotDue)), []);
  }

  /**
   The failing input of `UnseenReplacement` as a history: the page shows "a", the connection is lost, and
   the file is replaced by "bb" before anybody reads it again.
   */
  lemma ReplacedUnread(w: World, job: JobData) returns (before: seq<Happening>)
    requires OneByte(w, job)
    ensures IsHistory(w, before)
    ensures var w' := AfterAll(w, before);
            && Act(Drop) in before && Replace(job.stdoutExpanded, [98, 98]) in before
            && Of(w'.client, Stdout) == StdoutOnly && FileOf(w', Stdout) == [98, 98] && !ClientOk([98, 98], StdoutOnly)
            && InFlight(w') == [] && Within(w', 0, Stdout)
  {
    var moves := [Act(Open(job)), Act(Hear(0.0))] + [Act(Tick(NotDue))];
    var w3 := OpensAndServes(w, job);
    var transfer := Transfer(|w3.agentOut|);
    Transfers(w3);
    HistoryAppend(w, moves, transfer);
    var w4 := AfterAll(w3, transfer);
    var losing := [Act(Drop), Replace(job.stdoutExpanded, [98, 98])];
    LosesAndReplaces(w4, job);
    HistoryAppend(w, moves + transfer, losing);
    before := moves + transfer + losing;
    assert before[|moves + transfer|] == losing[0] && before[|moves + transfer| + 1] == losing[1];
  }

  lemma LosesAndReplaces(w: World, job: JobData)
    requires w.session.Some? && w.job == job && job.stdoutExpanded != "" && Of(w.client, Stdout) == StdoutOnly
    ensures var losing := [Act(Drop), Replace(job.stdoutExpanded, [98, 98])];
            IsHistory(w, losing)
            && var w' := AfterAll(w, losing);
               && Of(w'.client, Stdout) == StdoutOnly && FileOf(w', Stdout) == [98, 98]
               && !ClientOk([98, 98], StdoutOnly)
               && InFlight(w') == [] && Within(w', 0, Stdout)
  {
    var w1 := Happens(w, Act(Drop));
    var w2 := Happens(w1, Replace(job.stdoutExpanded, [98, 98]));
    HistoryFirst(w1, Replace(job.stdoutExpanded, [98, 98]), []);
    HistoryFirst(w, Act(Drop), [Replace(job.stdoutExpanded, [98, 98])]);
    OtherByte([]);
    var bb: Bytes := [98, 98];
    assert bb + [] == bb;
    assert InFlight(w2) == [] && InFlight(w2)[0..] == [];
  }

  lemma OtherByte(more: Bytes)
    ensures !ClientOk([98, 98] + more, StdoutOnly)
  {
    var file: Bytes := [98, 98] + more;
    var piece: Bytes := [98];
    assert file[0..1] == piece;
    OneLetter(98);
    assert !PieceOk(file, StdoutOnly, 0);
  }

  lemma StillUnnoticed(w: World, job: JobData, before: seq<Happening>, later: seq<Happening>)
    requires OneByte(w, job) && IsHistory(w, before)
    requires var w1 := AfterAll(w, before);
             && InFlight(w1) == [] && Within(w1, 0, Stdout)
             && Of(w1.client, Stdout) == StdoutOnly && FileOf(w1, Stdout) == [98, 98]
    requires IsHistory(AfterAll(w, before), later) && AllUndisturbed(AfterAll(w, before), later, Stdout)
    ensures var w' := AfterAll(AfterAll(w, before), later); !ClientOk(FileOf(w', Stdout), Of(w'.client, Stdout))
  {
    var w1 := AfterAll(w, before);
    UnseenReplacement(w, before, later, Stdout);
    FilesKept(w1, later, Stdout);
    var file := FileOf(AfterAll(w1, later), Stdout);
    assert file == [98, 98] + file[2..];
    OtherByte(file[2..]);
  }

  /** Whatever happens then, as long as the file only grows, the page stays out of step with it. */
  lemma NeverNoticed(w: World, job: JobData) returns (before: seq<Happening>)
    requires OneByte(w, job)
    ensures IsHistory(w, before) && Act(Drop) in before && Replace(job.stdoutExpanded, [98, 98]) in before
    ensures var w1 := AfterAll(w, before);
            forall later | IsHistory(w1, later) && AllUndisturbed(w1, later, Stdout) ::
              !ClientOk(FileOf(AfterAll(w1, later), Stdout), Of(AfterAll(w1, later).client, Stdout))
  {
    before := ReplacedUnread(w, job);
    var w1 := AfterAll(w, before);
    forall later | IsHistory(w1, later) && AllUndisturbed(w1, later, Stdout)
      ensures !ClientOk(FileOf(AfterAll(w1, later), Stdout), Of(AfterAll(w1, later).client, Stdout))
    {
      StillUnnoticed(w, job, before, later);
    }
  }
}
