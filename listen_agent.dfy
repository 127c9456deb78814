/** convex/index.ts: the `listenAgentWorkflow` handler. The durable engine runs its steps one after
    the other; here they are plain calls in that order, and `journal` lists the steps called. */
module ListenAgent {
  import opened Outcomes
  import opened Schema
  import opened Episodes
  import opened Db
  import opened WorkflowTools
  import opened TranscribeAudio
  import opened Notifications
  import opened JsText

  const MissingInput := "Must have a Track ID and Audio Url"

  /** The `step.runMutation` / `runQuery` / `runAction` calls of the handler. */
  datatype Step = Initialize | LookupTranscript | Transcribe | MarkFailed | InsertTranscript | MarkCompleted | Notify

  /** A run's answer (a returned string or the thrown error), its steps and the three tables it touches. */
  datatype Run = Run(
    result: Result<string>,
    journal: seq<Step>,
    agents: map<UserId, seq<Episode>>,
    transcripts: seq<TranscriptRow>,
    notifications: seq<Notification>)

  function CompletedMessage(trackId: TrackId): string {
    "Transcription completed for track " + IntToString(trackId)
  }

  /** The notification the last step inserts. */
  function ReadyNotification(args: WorkflowArgs): Notification {
    Notification(args.userId, args.trackId, ListenAgentKind, false, args.episodeTitle)
  }

  /** The episode list of the user after step 1. */
  function AfterInitialize(agents: map<UserId, seq<Episode>>, args: WorkflowArgs, now: int): seq<Episode> {
    Initialized(DocOf(agents, args.userId),
                NewEpisode(args.trackId, args.episodeTitle, args.episodeDescription, args.episodeImageUrl, args.releaseDate, now))
  }

  /** The last three steps, after a storage id was obtained. */
  function Finish(eps: seq<Episode>, run: Run, args: WorkflowArgs, storageId: StorageId): Run {
    Run(Ok(CompletedMessage(args.trackId)),
        run.journal + [InsertTranscript, MarkCompleted, Notify],
        run.agents[args.userId := WithStatusOnly(eps, args.trackId, Completed)],
        run.transcripts + [TranscriptRow(args.trackId, storageId)],
        run.notifications + [ReadyNotification(args)])
  }

  /** What one run of the workflow does, given the tables before it, the clock, the speech-to-text
      service's reply and the storage's answer. This is the specification the handler is proved
      against; the lemmas below read the source's promises off it. */
  function ExpectedRun(agents: map<UserId, seq<Episode>>, transcripts: seq<TranscriptRow>,
                       notifications: seq<Notification>, args: WorkflowArgs, now: int,
                       reply: TranscriberReply, store: StoreResult): Run
  {
    var untouched := Run(Ok(MissingInput), [], agents, transcripts, notifications);
    if args.trackId == 0 || args.audioUrl == "" then untouched
    else if args.userId == "" then untouched.(result := Err(WorkflowTools.NotAuthorized), journal := [Initialize])
    else
      var u := args.userId;
      var eps := AfterInitialize(agents, args, now);
      var initialized := Run(Ok(MissingInput), [Initialize, LookupTranscript], agents[u := eps], transcripts, notifications);
      match CheckIfTranscriptExists(transcripts, args.trackId)
      case Some(storageId) => Finish(eps, initialized, args, storageId)
      case None =>
        var called := initialized.(journal := initialized.journal + [Transcribe]);
        match TryTranscribe(args.audioUrl, reply, store)
        case Threw(message) =>
          called.(result := Err(message), agents := agents[u := WithStatus(eps, args.trackId, Failed, Some(message))])
        case Returned(None) =>
          called.(result := Err(UnableToTranscribe), journal := called.journal + [MarkFailed],
                  agents := agents[u := WithStatus(eps, args.trackId, Failed, Some(UnableToTranscribe))])
        case Returned(Some(storageId)) => Finish(eps, called, args, storageId)
  }

  /** `!args.trackId || !args.audioUrl` is false: the handler goes past its early return. */
  predicate ValidInput(args: WorkflowArgs) {
    args.trackId != 0 && args.audioUrl != ""
  }

  /** The run gets past step 1 (which throws on an empty user id). */
  predicate Started(args: WorkflowArgs) {
    ValidInput(args) && args.userId != ""
  }

  /** The position of each step in the handler's text. */
  function Rank(step: Step): nat {
    match step
    case Initialize => 0
    case LookupTranscript => 1
    case Transcribe => 2
    case MarkFailed => 3
    case InsertTranscript => 4
    case MarkCompleted => 5
    case Notify => 6
  }

  /** The steps of a journal come in the handler's order, none twice. */
  predicate InOrder(journal: seq<Step>) {
    forall i, j :: 0 <= i < j < |journal| ==> Rank(journal[i]) < Rank(journal[j])
  }

  /** The journals of a started run that fails or reuses a transcript, each in the handler's order. */
  lemma ShortJournalsInOrder()
    ensures InOrder([Initialize])
    ensures InOrder([Initialize, LookupTranscript, Transcribe])
    ensures InOrder([Initialize, LookupTranscript, Transcribe, MarkFailed])
    ensures InOrder([Initialize, LookupTranscript, InsertTranscript, MarkCompleted, Notify])
  {
  }

  /** The journal of a run that transcribes and succeeds is in the handler's order. */
  lemma LongJournalInOrder()
    ensures InOrder([Initialize, LookupTranscript, Transcribe, InsertTranscript, MarkCompleted, Notify])
  {
    var j := [Initialize, LookupTranscript, Transcribe, InsertTranscript, MarkCompleted, Notify];
    assert Rank(j[0]) == 0 && Rank(j[1]) == 1 && Rank(j[2]) == 2;
    assert Rank(j[3]) == 4 && Rank(j[4]) == 5 && Rank(j[5]) == 6;
  }

  /** The user's list has the track, and every entry for it has status `status`. */
  predicate TrackStatus(eps: seq<Episode>, trackId: TrackId, status: Status) {
    HasTrack(eps, trackId) && forall i :: 0 <= i < |eps| && eps[i].trackId == trackId ==> eps[i].status == status
  }

  /** `later` is `earlier` with at most its status and error message changed. */
  predicate SameButStatus(earlier: Episode, later: Episode) {
    later.(status := earlier.status, errorMessage := earlier.errorMessage) == earlier
  }

  /** The case of a run that reuses the stored transcript of the track. */
  lemma ExpectedRunReusing(agents: map<UserId, seq<Episode>>, transcripts: seq<TranscriptRow>,
                           notifications: seq<Notification>, args: WorkflowArgs, now: int,
                           reply: TranscriberReply, store: StoreResult, storageId: StorageId)
    requires args.trackId != 0 && args.audioUrl != "" && args.userId != ""
    requires CheckIfTranscriptExists(transcripts, args.trackId) == Some(storageId)
    ensures ExpectedRun(agents, transcripts, notifications, args, now, reply, store) ==
              Finish(AfterInitialize(agents, args, now),
                     Run(Ok(MissingInput), [Initialize, LookupTranscript], agents[args.userId := AfterInitialize(agents, args, now)],
                         transcripts, notifications),
                     args, storageId)
  {
  }

  /** The cases of a run that calls the speech-to-text service. */
  lemma ExpectedRunTranscribing(agents: map<UserId, seq<Episode>>, transcripts: seq<TranscriptRow>,
                                notifications: seq<Notification>, args: WorkflowArgs, now: int,
                                reply: TranscriberReply, store: StoreResult)
    requires args.trackId != 0 && args.audioUrl != "" && args.userId != ""
    requires CheckIfTranscriptExists(transcripts, args.trackId).None?
    ensures var eps := AfterInitialize(agents, args, now);
            var called := Run(Ok(MissingInput), [Initialize, LookupTranscript, Transcribe], agents[args.userId := eps],
                              transcripts, notifications);
            var run := ExpectedRun(agents, transcripts, notifications, args, now, reply, store);
            match TryTranscribe(args.audioUrl, reply, store)
            case Threw(message) =>
              run == called.(result := Err(message), agents := agents[args.userId := WithStatus(eps, args.trackId, Failed, Some(message))])
            case Returned(None) =>
              run == called.(result := Err(UnableToTranscribe), journal := called.journal + [MarkFailed],
                             agents := agents[args.userId := WithStatus(eps, args.trackId, Failed, Some(UnableToTranscribe))])
            case Returned(Some(storageId)) => run == Finish(eps, called, args, storageId)
  {
    assert [Initialize, LookupTranscript] + [Transcribe] == [Initialize, LookupTranscript, Transcribe];
  }

  /** `listenAgentWorkflow`'s handler. */
  method ListenAgentWorkflow(db: Database, args: WorkflowArgs, now: int, reply: TranscriberReply, store: StoreResult)
    returns (r: Result<string>, journal: seq<Step>)
    modifies db`agents, db`transcripts, db`notifications
    ensures Run(r, journal, db.agents, db.transcripts, db.notifications) ==
              ExpectedRun(old(db.agents), old(db.transcripts), old(db.notifications), args, now, reply, store)
  {
    journal := [];
    if args.trackId == 0 || args.audioUrl == "" {
      return Ok(MissingInput), journal;
    }

    // Step 1: the user's entry, `in-progress` unless it exists already.
    journal := journal + [Initialize];
    ghost var agents0 := db.agents;
    var init := InitializeAgentForUser(db, args.userId, args.trackId, args.episodeTitle,
                                       args.episodeDescription, args.episodeImageUrl, args.releaseDate, now);
    if init.Err? {
      return Err(init.message), journal;
    }

    journal := journal + [LookupTranscript];
    r, journal := TranscribeAndComplete(db, args, now, reply, store, agents0, journal);
  }

  /** The handler from the transcript lookup on, once step 1 has stored `AfterInitialize`. */
  method TranscribeAndComplete(db: Database, args: WorkflowArgs, now: int, reply: TranscriberReply, store: StoreResult,
                               ghost agents0: map<UserId, seq<Episode>>, journalBefore: seq<Step>)
    returns (r: Result<string>, journal: seq<Step>)
    requires args.trackId != 0 && args.audioUrl != "" && args.userId != ""
    requires db.agents == agents0[args.userId := AfterInitialize(agents0, args, now)]
    requires journalBefore == [Initialize, LookupTranscript]
    modifies db`agents, db`transcripts, db`notifications
    ensures Run(r, journal, db.agents, db.transcripts, db.notifications) ==
              ExpectedRun(agents0, old(db.transcripts), old(db.notifications), args, now, reply, store)
  {
    journal := journalBefore;
    var transcriptExists := CheckIfTranscriptExists(db.transcripts, args.trackId);

    // Step 2: reuse the transcript of the track, or transcribe the audio.
    if transcriptExists.Some? {
      ExpectedRunReusing(agents0, db.transcripts, db.notifications, args, now, reply, store, transcriptExists.value);
      journal := CompleteRun(db, args, transcriptExists.value, journal);
      return Ok(CompletedMessage(args.trackId)), journal;
    }

    r, journal := TranscribeThenComplete(db, args, now, reply, store, agents0, journal);
  }

  /** The handler from the call to the speech-to-text service on, once the lookup found nothing. */
  method TranscribeThenComplete(db: Database, args: WorkflowArgs, now: int, reply: TranscriberReply, store: StoreResult,
                                ghost agents0: map<UserId, seq<Episode>>, journalBefore: seq<Step>)
    returns (r: Result<string>, journal: seq<Step>)
    requires args.trackId != 0 && args.audioUrl != "" && args.userId != ""
    requires db.agents == agents0[args.userId := AfterInitialize(agents0, args, now)]
    requires journalBefore == [Initialize, LookupTranscript]
    requires CheckIfTranscriptExists(db.transcripts, args.trackId).None?
    modifies db`agents, db`transcripts, db`notifications
    ensures Run(r, journal, db.agents, db.transcripts, db.notifications) ==
              ExpectedRun(agents0, old(db.transcripts), old(db.notifications), args, now, reply, store)
  {
    ExpectedRunTranscribing(agents0, db.transcripts, db.notifications, args, now, reply, store);
    journal := journalBefore + [Transcribe];
    ghost var t := TryTranscribe(args.audioUrl, reply, store);
    var transcribed := TranscribeAudioAction(db, args.userId, args.audioUrl, args.trackId, reply, store);
    if transcribed.Err? {
      assert t.Threw?;
      return Err(transcribed.message), journal;
    }
    assert t == Returned(transcribed.value);
    if transcribed.value.None? {
      journal := journal + [MarkFailed];
      // The user's document exists since step 1, so this update does not throw.
      var _ := UpdateAgentStatus(db, args.userId, args.trackId, Failed, Some(UnableToTranscribe));
      return Err(UnableToTranscribe), journal;
    }

    journal := CompleteRun(db, args, transcribed.value.value, journal);
    return Ok(CompletedMessage(args.trackId)), journal;
  }

  /** Steps 3 to 5 of the handler, once a storage id is known and the user's entry exists. */
  method CompleteRun(db: Database, args: WorkflowArgs, storageId: StorageId, journalBefore: seq<Step>)
    returns (journal: seq<Step>)
    requires args.userId != "" && args.userId in db.agents
    modifies db`agents, db`transcripts, db`notifications
    ensures var before := Run(Ok(CompletedMessage(args.trackId)), journalBefore, old(db.agents), old(db.transcripts), old(db.notifications));
            Run(Ok(CompletedMessage(args.trackId)), journal, db.agents, db.transcripts, db.notifications) ==
              Finish(old(db.agents)[args.userId], before, args, storageId)
  {
    // Step 3: the transcript row, inserted on every successful run.
    journal := journalBefore + [InsertTranscript];
    var _ := CreateAgentTranscript(db, args.trackId, storageId, args.userId);

    // Step 4: mark the entry completed (cannot throw: the document exists).
    journal := journal + [MarkCompleted];
    var _ := UpdateAgentTranscript(db, args.userId, args.trackId, Completed);

    // Step 5: notify the user (cannot throw: the user id is not empty).
    journal := journal + [Notify];
    var _ := CreateNotification(db, args.userId, args.trackId, ListenAgentKind, false, args.episodeTitle);
  }

  // ---- What a run does ----

  /** A falsy track id (0) or an empty audio URL: the fixed message, no step, no write. */
  lemma BadInputTouchesNothing(agents: map<UserId, seq<Episode>>, transcripts: seq<TranscriptRow>,
                               notifications: seq<Notification>, args: WorkflowArgs, now: int,
                               reply: TranscriberReply, store: StoreResult)
    requires !ValidInput(args)
    ensures ExpectedRun(agents, transcripts, notifications, args, now, reply, store) ==
              Run(Ok(MissingInput), [], agents, transcripts, notifications)
  {
  }

  /** The steps run in the handler's order, none twice, starting with step 1 whenever the input
      gets past the early return. */
  lemma StepsInOrder(agents: map<UserId, seq<Episode>>, transcripts: seq<TranscriptRow>,
                     notifications: seq<Notification>, args: WorkflowArgs, now: int,
                     reply: TranscriberReply, store: StoreResult)
    ensures var run := ExpectedRun(agents, transcripts, notifications, args, now, reply, store);
            && InOrder(run.journal)
            && (ValidInput(args) <==> run.journal != [] && run.journal[0] == Initialize)
  {
    var run := ExpectedRun(agents, transcripts, notifications, args, now, reply, store);
    ShortJournalsInOrder();
    LongJournalInOrder();
    if Started(args) {
      var reused := CheckIfTranscriptExists(transcripts, args.trackId).Some?;
      var t := TryTranscribe(args.audioUrl, reply, store);
      if reused {
        ExpectedRunReusing(agents, transcripts, notifications, args, now, reply, store,
                           CheckIfTranscriptExists(transcripts, args.trackId).value);
        assert run.journal == [Initialize, LookupTranscript, InsertTranscript, MarkCompleted, Notify];
      } else if t.Threw? {
        ExpectedRunTranscribing(agents, transcripts, notifications, args, now, reply, store);
        assert run.journal == [Initialize, LookupTranscript, Transcribe];
      } else if t.storageId.None? {
        ExpectedRunTranscribing(agents, transcripts, notifications, args, now, reply, store);
        assert run.journal == [Initialize, LookupTranscript, Transcribe, MarkFailed];
      } else {
        ExpectedRunTranscribing(agents, transcripts, notifications, args, now, reply, store);
        assert run.journal == [Initialize, LookupTranscript, Transcribe, InsertTranscript, MarkCompleted, Notify];
      }
    }
  }

  /** The speech-to-text service is called exactly when the run is started and the lookup found no
      transcript for the track. */
  lemma TranscribeOnlyWithoutTranscript(agents: map<UserId, seq<Episode>>, transcripts: seq<TranscriptRow>,
                                         notifications: seq<Notification>, args: WorkflowArgs, now: int,
                                         reply: TranscriberReply, store: StoreResult)
    ensures var run := ExpectedRun(agents, transcripts, notifications, args, now, reply, store);
            Transcribe in run.journal <==> Started(args) && CheckIfTranscriptExists(transcripts, args.trackId).None?
  {
    var run := ExpectedRun(agents, transcripts, notifications, args, now, reply, store);
    if Started(args) {
      var t := TryTranscribe(args.audioUrl, reply, store);
      if CheckIfTranscriptExists(transcripts, args.trackId).Some? {
        ExpectedRunReusing(agents, transcripts, notifications, args, now, reply, store,
                           CheckIfTranscriptExists(transcripts, args.trackId).value);
        assert run.journal == [Initialize, LookupTranscript, InsertTranscript, MarkCompleted, Notify];
      } else {
        ExpectedRunTranscribing(agents, transcripts, notifications, args, now, reply, store);
        if t.Threw? {
          assert run.journal == [Initialize, LookupTranscript, Transcribe];
        } else if t.storageId.None? {
          assert run.journal == [Initialize, LookupTranscript, Transcribe, MarkFailed];
        } else {
          assert run.journal == [Initialize, LookupTranscript, Transcribe, InsertTranscript, MarkCompleted, Notify];
        }
      }
    }
  }

  /** The user is notified exactly when a started run succeeds. */
  lemma NotifyOnlyOnSuccess(agents: map<UserId, seq<Episode>>, transcripts: seq<TranscriptRow>,
                            notifications: seq<Notification>, args: WorkflowArgs, now: int,
                            reply: TranscriberReply, store: StoreResult)
    ensures var run := ExpectedRun(agents, transcripts, notifications, args, now, reply, store);
            Notify in run.journal <==> Started(args) && run.result.Ok?
  {
    var run := ExpectedRun(agents, transcripts, notifications, args, now, reply, store);
    if Started(args) {
      var t := TryTranscribe(args.audioUrl, reply, store);
      if CheckIfTranscriptExists(transcripts, args.trackId).Some? {
        ExpectedRunReusing(agents, transcripts, notifications, args, now, reply, store,
                           CheckIfTranscriptExists(transcripts, args.trackId).value);
        assert run.journal == [Initialize, LookupTranscript, InsertTranscript, MarkCompleted, Notify];
      } else {
        ExpectedRunTranscribing(agents, transcripts, notifications, args, now, reply, store);
        if t.Threw? {
          assert run.journal == [Initialize, LookupTranscript, Transcribe];
        } else if t.storageId.None? {
          assert run.journal == [Initialize, LookupTranscript, Transcribe, MarkFailed];
        } else {
          assert run.journal == [Initialize, LookupTranscript, Transcribe, InsertTranscript, MarkCompleted, Notify];
        }
      }
    }
  }

  /** With a transcript for the track already stored, the service is not consulted: the run is the
      same whatever it would have answered, it succeeds, and it stores the old storage id again. */
  lemma ReuseIgnoresTranscriber(agents: map<UserId, seq<Episode>>, transcripts: seq<TranscriptRow>,
                                notifications: seq<Notification>, args: WorkflowArgs, now: int,
                                reply: TranscriberReply, store: StoreResult,
                                otherReply: TranscriberReply, otherStore: StoreResult)
    requires Started(args) && CheckIfTranscriptExists(transcripts, args.trackId).Some?
    ensures var run := ExpectedRun(agents, transcripts, notifications, args, now, reply, store);
            && run == ExpectedRun(agents, transcripts, notifications, args, now, otherReply, otherStore)
            && run.result == Ok(CompletedMessage(args.trackId))
            && run.transcripts == transcripts + [TranscriptRow(args.trackId, CheckIfTranscriptExists(transcripts, args.trackId).value)]
  {
  }

  /** Every entry of the track carries `failed` and the error message `message`. */
  predicate FailedWith(eps: seq<Episode>, trackId: TrackId, message: string) {
    TrackStatus(eps, trackId, Failed) &&
    forall i :: 0 <= i < |eps| && eps[i].trackId == trackId ==> eps[i].errorMessage == Some(message)
  }

  /** The service yields a storage id. */
  predicate YieldsStorageId(t: Transcription) {
    t.Returned? && t.storageId.Some?
  }

  /** A started run fails exactly when no transcript was stored and the service yields no storage
      id; with no storage id and no exception the error is "Unable to transcribe audio". */
  lemma FailsWithoutStorageId(agents: map<UserId, seq<Episode>>, transcripts: seq<TranscriptRow>,
                              notifications: seq<Notification>, args: WorkflowArgs, now: int,
                              reply: TranscriberReply, store: StoreResult)
    requires Started(args)
    ensures var run := ExpectedRun(agents, transcripts, notifications, args, now, reply, store);
            && (run.result.Err? <==>
                  CheckIfTranscriptExists(transcripts, args.trackId).None? && !YieldsStorageId(TryTranscribe(args.audioUrl, reply, store)))
            && (CheckIfTranscriptExists(transcripts, args.trackId).None? && TryTranscribe(args.audioUrl, reply, store) == Returned(None) ==>
                  run.result == Err(UnableToTranscribe))
  {
  }

  /** A failed run inserts no transcript row and no notification, and leaves the entry `failed`
      with the error it throws. */
  lemma FailureLeavesNoTrace(agents: map<UserId, seq<Episode>>, transcripts: seq<TranscriptRow>,
                             notifications: seq<Notification>, args: WorkflowArgs, now: int,
                             reply: TranscriberReply, store: StoreResult)
    requires Started(args)
    requires ExpectedRun(agents, transcripts, notifications, args, now, reply, store).result.Err?
    ensures var run := ExpectedRun(agents, transcripts, notifications, args, now, reply, store);
            && run.transcripts == transcripts
            && run.notifications == notifications
            && args.userId in run.agents
            && FailedWith(run.agents[args.userId], args.trackId, run.result.message)
  {
    var eps := AfterInitialize(agents, args, now);
    match TryTranscribe(args.audioUrl, reply, store)
    case Threw(message) => WithStatusKeepsTracks(eps, args.trackId, Failed, Some(message));
    case Returned(_) => WithStatusKeepsTracks(eps, args.trackId, Failed, Some(UnableToTranscribe));
  }

  /** A successful run returns "Transcription completed for track <id>", adds exactly one transcript
      row for the track (a reused storage id included) and exactly one unread `listen_agent`
      notification with the run's track and title. */
  lemma SuccessEffects(agents: map<UserId, seq<Episode>>, transcripts: seq<TranscriptRow>,
                       notifications: seq<Notification>, args: WorkflowArgs, now: int,
                       reply: TranscriberReply, store: StoreResult)
    requires Started(args)
    requires ExpectedRun(agents, transcripts, notifications, args, now, reply, store).result.Ok?
    ensures var run := ExpectedRun(agents, transcripts, notifications, args, now, reply, store);
            && run.result == Ok(CompletedMessage(args.trackId))
            && (exists storageId :: run.transcripts == transcripts + [TranscriptRow(args.trackId, storageId)])
            && run.notifications == notifications + [Notification(args.userId, args.trackId, ListenAgentKind, false, args.episodeTitle)]
  {
  }

  /** A successful run leaves every entry of the track `completed`. */
  lemma SuccessCompletesEntry(agents: map<UserId, seq<Episode>>, transcripts: seq<TranscriptRow>,
                              notifications: seq<Notification>, args: WorkflowArgs, now: int,
                              reply: TranscriberReply, store: StoreResult)
    requires Started(args)
    requires ExpectedRun(agents, transcripts, notifications, args, now, reply, store).result.Ok?
    ensures var run := ExpectedRun(agents, transcripts, notifications, args, now, reply, store);
            args.userId in run.agents && TrackStatus(run.agents[args.userId], args.trackId, Completed)
  {
    var eps := AfterInitialize(agents, args, now);
    var run := ExpectedRun(agents, transcripts, notifications, args, now, reply, store);
    match CheckIfTranscriptExists(transcripts, args.trackId)
    case Some(storageId) =>
      ExpectedRunReusing(agents, transcripts, notifications, args, now, reply, store, storageId);
    case None =>
      ExpectedRunTranscribing(agents, transcripts, notifications, args, now, reply, store);
      assert TryTranscribe(args.audioUrl, reply, store).Returned?;
    var after := WithStatusOnly(eps, args.trackId, Completed);
    assert run.agents[args.userId] == after;
    var i :| 0 <= i < |eps| && eps[i].trackId == args.trackId;
    WithStatusOnlyKeepsTracks(eps, args.trackId, Completed);
    assert after[i].trackId == args.trackId;
  }

  /** The last three steps of a successful run are insert, complete, notify. */
  lemma SuccessEndsWithNotify(agents: map<UserId, seq<Episode>>, transcripts: seq<TranscriptRow>,
                              notifications: seq<Notification>, args: WorkflowArgs, now: int,
                              reply: TranscriberReply, store: StoreResult)
    requires Started(args)
    requires ExpectedRun(agents, transcripts, notifications, args, now, reply, store).result.Ok?
    ensures var run := ExpectedRun(agents, transcripts, notifications, args, now, reply, store);
            |run.journal| >= 3 && run.journal[|run.journal| - 3..] == [InsertTranscript, MarkCompleted, Notify]
  {
  }

  /** A run writes only the user's own entry: other users' lists stay as they were. */
  lemma OtherUsersUntouched(agents: map<UserId, seq<Episode>>, transcripts: seq<TranscriptRow>,
                            notifications: seq<Notification>, args: WorkflowArgs, now: int,
                            reply: TranscriberReply, store: StoreResult)
    ensures var run := ExpectedRun(agents, transcripts, notifications, args, now, reply, store);
            forall v :: v in agents && v != args.userId ==> v in run.agents && run.agents[v] == agents[v]
  {
  }

  /** The user gains a list once the run gets past step 1, and no other user does. */
  lemma RunUsers(agents: map<UserId, seq<Episode>>, transcripts: seq<TranscriptRow>,
                 notifications: seq<Notification>, args: WorkflowArgs, now: int,
                 reply: TranscriberReply, store: StoreResult)
    ensures var run := ExpectedRun(agents, transcripts, notifications, args, now, reply, store);
            run.agents.Keys == (if Started(args) then agents.Keys + {args.userId} else agents.Keys)
  {
  }

  /** The user's entry after a started run: the list of step 1 with the track's status set. */
  lemma RunEntry(agents: map<UserId, seq<Episode>>, transcripts: seq<TranscriptRow>,
                 notifications: seq<Notification>, args: WorkflowArgs, now: int,
                 reply: TranscriberReply, store: StoreResult)
    requires Started(args)
    ensures var run := ExpectedRun(agents, transcripts, notifications, args, now, reply, store);
            var eps := AfterInitialize(agents, args, now);
            && args.userId in run.agents
            && (|| run.agents[args.userId] == WithStatusOnly(eps, args.trackId, Completed)
                || (exists message :: run.agents[args.userId] == WithStatus(eps, args.trackId, Failed, Some(message))))
  {
    var eps := AfterInitialize(agents, args, now);
    var run := ExpectedRun(agents, transcripts, notifications, args, now, reply, store);
    match CheckIfTranscriptExists(transcripts, args.trackId)
    case Some(storageId) =>
      ExpectedRunReusing(agents, transcripts, notifications, args, now, reply, store, storageId);
    case None =>
      ExpectedRunTranscribing(agents, transcripts, notifications, args, now, reply, store);
      match TryTranscribe(args.audioUrl, reply, store)
      case Threw(message) =>
        assert run.agents[args.userId] == WithStatus(eps, args.trackId, Failed, Some(message));
      case Returned(None) =>
        assert run.agents[args.userId] == WithStatus(eps, args.trackId, Failed, Some(UnableToTranscribe));
      case Returned(Some(_)) =>
  }

  /** The user's earlier episodes stay in place with everything but status and error message:
      the run appends at most one entry, and none once the track is there. */
  lemma EarlierEpisodesKept(agents: map<UserId, seq<Episode>>, transcripts: seq<TranscriptRow>,
                            notifications: seq<Notification>, args: WorkflowArgs, now: int,
                            reply: TranscriberReply, store: StoreResult)
    requires Started(args) && args.userId in agents
    ensures var run := ExpectedRun(agents, transcripts, notifications, args, now, reply, store);
            var before := agents[args.userId];
            && args.userId in run.agents
            && |before| <= |run.agents[args.userId]| <= |before| + 1
            && (HasTrack(before, args.trackId) ==> |run.agents[args.userId]| == |before|)
            && forall i :: 0 <= i < |before| ==> SameButStatus(before[i], run.agents[args.userId][i])
  {
    var before := agents[args.userId];
    var eps := AfterInitialize(agents, args, now);
    assert forall i :: 0 <= i < |before| ==> eps[i] == before[i] by {
      assert eps[..|before|] == before;
    }
    if HasTrack(before, args.trackId) {
      InitializedKeepsExisting(before, NewEpisode(args.trackId, args.episodeTitle, args.episodeDescription,
                                                  args.episodeImageUrl, args.releaseDate, now));
    }
    RunEntry(agents, transcripts, notifications, args, now, reply, store);
  }

  /** Runs keep the store's shape of one entry per track in every user's list. */
  lemma UniqueTracksPreserved(agents: map<UserId, seq<Episode>>, transcripts: seq<TranscriptRow>,
                              notifications: seq<Notification>, args: WorkflowArgs, now: int,
                              reply: TranscriberReply, store: StoreResult)
    requires forall v :: v in agents ==> UniqueTracks(agents[v])
    ensures var run := ExpectedRun(agents, transcripts, notifications, args, now, reply, store);
            forall v :: v in run.agents ==> UniqueTracks(run.agents[v])
  {
    if Started(args) {
      var eps := AfterInitialize(agents, args, now);
      InitializedKeepsUnique(DocOf(agents, args.userId), NewEpisode(args.trackId, args.episodeTitle,
        args.episodeDescription, args.episodeImageUrl, args.releaseDate, now));
      WithStatusOnlyKeepsTracks(eps, args.trackId, Completed);
      WithStatusKeepsTracks(eps, args.trackId, Failed, Some(UnableToTranscribe));
      match TryTranscribe(args.audioUrl, reply, store)
      case Threw(message) => WithStatusKeepsTracks(eps, args.trackId, Failed, Some(message));
      case Returned(_) =>
    }
  }

  /** Starting the same episode twice (the kickoff guard never stops it): the second run reuses the
      first's transcript whatever the service says, and there are then two transcript rows and two
      notifications. */
  lemma RepeatedRun(agents: map<UserId, seq<Episode>>, transcripts: seq<TranscriptRow>,
                    notifications: seq<Notification>, args: WorkflowArgs, now: int, later: int,
                    reply: TranscriberReply, store: StoreResult,
                    secondReply: TranscriberReply, secondStore: StoreResult)
    requires Started(args)
    requires ExpectedRun(agents, transcripts, notifications, args, now, reply, store).result.Ok?
    ensures var first := ExpectedRun(agents, transcripts, notifications, args, now, reply, store);
            var second := ExpectedRun(first.agents, first.transcripts, first.notifications, args, later, secondReply, secondStore);
            && second.result == first.result
            && Transcribe !in second.journal
            && |second.transcripts| == |transcripts| + 2
            && |second.notifications| == |notifications| + 2
  {
    var first := ExpectedRun(agents, transcripts, notifications, args, now, reply, store);
    SuccessEffects(agents, transcripts, notifications, args, now, reply, store);
    var storageId :| first.transcripts == transcripts + [TranscriptRow(args.trackId, storageId)];
    assert first.transcripts[|transcripts|] == TranscriptRow(args.trackId, storageId);
    assert CheckIfTranscriptExists(first.transcripts, args.trackId).Some?;
    ReuseIgnoresTranscriber(first.agents, first.transcripts, first.notifications, args, later, secondReply, secondStore, secondReply, secondStore);
    TranscribeOnlyWithoutTranscript(first.agents, first.transcripts, first.notifications, args, later, secondReply, secondStore);
    SuccessEffects(first.agents, first.transcripts, first.notifications, args, later, secondReply, secondStore);
  }

  /** After a started run the user's list holds the track, whatever the outcome. */
  lemma RunKeepsTrack(agents: map<UserId, seq<Episode>>, transcripts: seq<TranscriptRow>,
                      notifications: seq<Notification>, args: WorkflowArgs, now: int,
                      reply: TranscriberReply, store: StoreResult)
    requires Started(args)
    ensures var run := ExpectedRun(agents, transcripts, notifications, args, now, reply, store);
            args.userId in run.agents && HasTrack(run.agents[args.userId], args.trackId)
  {
    var eps := AfterInitialize(agents, args, now);
    var i :| 0 <= i < |eps| && eps[i].trackId == args.trackId;
    WithStatusOnlyKeepsTracks(eps, args.trackId, Completed);
    RunEntry(agents, transcripts, notifications, args, now, reply, store);
    var run := ExpectedRun(agents, transcripts, notifications, args, now, reply, store);
    if run.agents[args.userId] != WithStatusOnly(eps, args.trackId, Completed) {
      var message :| run.agents[args.userId] == WithStatus(eps, args.trackId, Failed, Some(message));
      WithStatusKeepsTracks(eps, args.trackId, Failed, Some(message));
    }
    assert run.agents[args.userId][i].trackId == args.trackId;
  }

  /** However often an episode is run, the user keeps one entry for its track. */
  lemma RepeatedRunOneEntry(agents: map<UserId, seq<Episode>>, transcripts: seq<TranscriptRow>,
                            notifications: seq<Notification>, args: WorkflowArgs, now: int, later: int,
                            reply: TranscriberReply, store: StoreResult,
                            secondReply: TranscriberReply, secondStore: StoreResult)
    requires Started(args)
    requires forall v :: v in agents ==> UniqueTracks(agents[v])
    ensures var first := ExpectedRun(agents, transcripts, notifications, args, now, reply, store);
            var second := ExpectedRun(first.agents, first.transcripts, first.notifications, args, later, secondReply, secondStore);
            && args.userId in second.agents
            && CountTrack(second.agents[args.userId], args.trackId) == 1
  {
    var first := ExpectedRun(agents, transcripts, notifications, args, now, reply, store);
    UniqueTracksPreserved(agents, transcripts, notifications, args, now, reply, store);
    UniqueTracksPreserved(first.agents, first.transcripts, first.notifications, args, later, secondReply, secondStore);
    var second := ExpectedRun(first.agents, first.transcripts, first.notifications, args, later, secondReply, secondStore);
    OtherUsersUntouched(first.agents, first.transcripts, first.notifications, args, later, secondReply, secondStore);
    RunKeepsTrack(first.agents, first.transcripts, first.notifications, args, later, secondReply, secondStore);
    UniqueCountAtMostOne(second.agents[args.userId], args.trackId);
  }
}
