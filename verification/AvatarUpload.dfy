/** The hook useAvatarUpload as an object over its refs. Every public method is one step of the machine in Avatar and
    keeps its invariant; a `Take...` method is the continuation of one await. */
module AvatarUpload {
  import opened Wrappers
  import opened Avatar

  class AvatarHook {
    var ui: Ui
    var gen: nat
    var key: nat
    var imageId: Option<nat>
    var attempts: nat
    var failures: nat
    var inFlight: bool
    var cancelled: bool
    var timer: Option<nat>
    var preview: Option<string>
    var active: Option<string>
    ghost var pending: seq<Continuation>
    ghost var log: seq<Event>
    ghost var readCount: nat

    ghost function View(): Machine
      reads this
    {
      Machine(ui, gen, key, imageId, attempts, failures, inFlight, cancelled, timer, preview, active,
              pending, log, readCount)
    }

    ghost predicate Valid()
      reads this
    {
      Inv(View())
    }

    constructor (initialImage: Option<string>)
      ensures Valid() && View() == Initial(initialImage)
    {
      ui, gen, key, imageId := Idle, 0, 0, None;
      attempts, failures, inFlight, cancelled := 0, 0, false, false;
      timer, preview, active := None, None, initialImage;
      pending, log, readCount := [], [], 0;
    }

    method ResetAttempt()
      modifies this
      ensures View() == old(View()).(gen := old(gen) + 1, key := old(key) + 1, inFlight := false,
                                     log := old(log) + [NewAttempt(old(gen) + 1, old(key) + 1)])
    {
      gen := gen + 1;
      key := key + 1;
      inFlight := false;
      log := log + [NewAttempt(gen, key)];
    }

    method SchedulePoll(forGen: nat)
      modifies this`timer
      ensures View() == Arm(old(View()), forGen)
    {
      if cancelled || gen != forGen {
        return;
      }
      timer := Some(forGen);
    }

    // Fresh counters, and the first timer of the poll.
    method RearmPoll()
      modifies this
      ensures View() == Rearm(old(View()))
    {
      attempts, failures := 0, 0;
      readCount, log := 0, log + [Armed(gen)];
      timer := None;
      ui := Processing(0);
      SchedulePoll(gen);
    }

    method Activate(id: nat, fromPoll: bool)
      modifies this
      ensures View() == Avatar.Activate(old(View()), id, fromPoll)
    {
      ui := Activating;
      inFlight := inFlight || fromPoll;
      log := log + [CallSetAvatar(gen, id)];
      pending := pending + [ActivateC(gen, id, fromPoll)];
    }

    /** A pick claims its attempt at once: every reply still to come is superseded, whatever it will say. */
    method SelectFile(schemaOk: bool)
      requires Valid()
      modifies this
      ensures Valid() && View() == OnSelectFile(old(View()), schemaOk)
      ensures StartsOver(old(View()), View())
      ensures if schemaOk then pending == old(pending) + [PreflightC(gen)] && ui == old(ui)
              else pending == old(pending) && ui == Error(UploadPhase, UPLOAD_FAILED)
    {
      AttemptMeans(View(), schemaOk);
      Pick(schemaOk);
    }

    method Pick(schemaOk: bool)
      modifies this
      ensures View() == OnSelectFile(old(View()), schemaOk)
    {
      ResetAttempt();
      timer := None;
      if !schemaOk {
        ui := Error(UploadPhase, UPLOAD_FAILED);
        return;
      }
      pending := pending + [PreflightC(gen)];
    }

    /** A removal supersedes every reply still to come as well. */
    method RemoveAvatar()
      requires Valid()
      modifies this
      ensures Valid() && View() == OnRemove(old(View()))
      ensures StartsOver(old(View()), View()) && preview == None && active == old(active)
      ensures pending == old(pending) + [RemoveC(gen)] && ui == Removing
    {
      AttemptMeans(View(), true);
      Clear();
    }

    method Clear()
      modifies this
      ensures View() == OnRemove(old(View()))
    {
      ResetAttempt();
      timer := None;
      preview := None;
      ui := Removing;
      pending := pending + [RemoveC(gen)];
    }

    /** From a timed-out poll: the same image is polled again with fresh counters and nothing is uploaded; sound if and
        only if no newer pick is in its pre-flight. From a failure: everything still to come is superseded. */
    method Retry()
      requires Valid()
      modifies this
      ensures View() == OnRetry(old(View()))
      ensures Valid() <==> RetryIsSafe(old(View()))
      ensures old(ui.TimedOut?) ==> PollsAnew(old(View()), View())
      ensures old(ui.Error? || ui.DerivationFailed?) ==>
                StartsOver(old(View()), View()) && pending == old(pending) && ui == Idle && preview == None
      ensures old(!ui.TimedOut? && !ui.Error? && !ui.DerivationFailed?) ==> View() == old(View())
    {
      RetryMeans(View());
      TryAgain();
    }

    method TryAgain()
      modifies this
      ensures View() == OnRetry(old(View()))
    {
      if ui.TimedOut? {
        if imageId.None? {
          return;
        }
        RearmPoll();
        return;
      }
      if ui.Error? || ui.DerivationFailed? {
        ResetAttempt();
        timer := None;
        preview := None;
        ui := Idle;
      }
    }

    /** The timer fires: one read, of the image granted to this attempt. */
    method Poll()
      requires Valid() && timer.Some?
      modifies this
      ensures Valid() && View() == OnTimer(old(View()))
      ensures inFlight && timer == None && imageId.Some? && TargetGranted(gen, imageId.value) in old(log)
      ensures log == old(log) + [StatusRead(gen, imageId.value)]
      ensures pending == old(pending) + [StatusC(gen, imageId.value)] && ui == old(ui)
    {
      TimerMeans(View());
      FireTimer();
    }

    method FireTimer()
      requires timer.Some?
      modifies this
      ensures View() == OnTimer(old(View()))
    {
      var forGen := timer.value;
      timer := None;
      if inFlight || cancelled || gen != forGen || imageId.None? {
        return;
      }
      inFlight := true;
      readCount := readCount + 1;
      log := log + [StatusRead(forGen, imageId.value)];
      pending := pending + [StatusC(forGen, imageId.value)];
    }

    method Unmount()
      requires Valid()
      modifies this
      ensures Valid() && View() == old(View()).(cancelled := true, timer := None)
    {
      cancelled := true;
      timer := None;
    }

    // A reply arrives for generation `forGen`; says whether the continuation goes on.
    method Arrive(ghost i: nat, forGen: nat, holdsLatch: bool) returns (goOn: bool)
      requires i < |pending| && pending[i].gen == forGen && HoldsLatch(pending[i]) == holdsLatch
      modifies this`pending, this`inFlight
      ensures View() == Take(old(View()), i)
      ensures goOn == !Stale(old(View()), old(pending[i]))
    {
      pending := pending[..i] + pending[i + 1..];
      if holdsLatch && gen == forGen {
        inFlight := false;
      }
      goOn := !cancelled && gen == forGen;
    }

    method ReportFailure(phase: Phase, code: Code)
      modifies this
      ensures View() == Fail(old(View()), phase, code)
    {
      if code == SESSION_EXPIRED {
        log := log + [SessionExpired(gen)];
        return;
      }
      ui := Error(phase, code);
    }

    /** The pre-flight check ends: a current pick goes on to request its target, or fails. */
    method ResolvePreflight(ghost i: nat, forGen: nat, url: Option<string>)
      requires Valid()
      requires i < |pending| && pending[i] == PreflightC(forGen)
      modifies this
      ensures Valid() && View() == OnResolve(old(View()), i, Preflighted(url))
      ensures ReplyAllows(old(View()), old(pending[i]), Preflighted(url), View())
      ensures !Stale(old(View()), old(pending[i])) ==> UploadBrings(old(View()), i, Preflighted(url), View())
    {
      if !Stale(View(), pending[i]) {
        UploadReplyMeans(View(), i, Preflighted(url));
      }
      ResolveKeeps(View(), i, Preflighted(url));
      ReplyMeans(View(), i, Preflighted(url));
      TakePreflight(i, forGen, url);
    }

    method TakePreflight(ghost i: nat, forGen: nat, url: Option<string>)
      requires i < |pending| && pending[i] == PreflightC(forGen)
      modifies this
      ensures View() == OnResolve(old(View()), i, Preflighted(url))
    {
      var goOn := Arrive(i, forGen, false);
      if !goOn {
        return;
      }
      if url.None? {
        ui := Error(UploadPhase, UPLOAD_FAILED);
        return;
      }
      preview := url;
      ui := Requesting;
      pending := pending + [RequestC(forGen, key)];
    }

    /** A granted target is the image of this attempt from now on. */
    method ResolveRequest(ghost i: nat, forGen: nat, withKey: nat, target: Answer<nat, Code>)
      requires Valid()
      requires i < |pending| && pending[i] == RequestC(forGen, withKey)
      modifies this
      ensures Valid() && View() == OnResolve(old(View()), i, Requested(target))
      ensures ReplyAllows(old(View()), old(pending[i]), Requested(target), View())
      ensures !Stale(old(View()), old(pending[i])) ==> UploadBrings(old(View()), i, Requested(target), View())
    {
      if !Stale(View(), pending[i]) {
        UploadReplyMeans(View(), i, Requested(target));
      }
      ResolveKeeps(View(), i, Requested(target));
      ReplyMeans(View(), i, Requested(target));
      TakeRequest(i, forGen, withKey, target);
    }

    method TakeRequest(ghost i: nat, forGen: nat, withKey: nat, target: Answer<nat, Code>)
      requires i < |pending| && pending[i] == RequestC(forGen, withKey)
      modifies this
      ensures View() == OnResolve(old(View()), i, Requested(target))
    {
      var goOn := Arrive(i, forGen, false);
      if !goOn {
        return;
      }
      match target
      case Failure(code) => ReportFailure(RequestPhase, code);
      case Success(id) =>
        imageId := Some(id);
        log := log + [TargetGranted(forGen, id)];
        ui := Uploading;
        pending := pending + [UploadC(forGen, id, withKey)];
    }

    /** Only a stored file is committed. */
    method ResolveUpload(ghost i: nat, forGen: nat, id: nat, withKey: nat, ok: bool)
      requires Valid()
      requires i < |pending| && pending[i] == UploadC(forGen, id, withKey)
      modifies this
      ensures Valid() && View() == OnResolve(old(View()), i, Uploaded(ok))
      ensures ReplyAllows(old(View()), old(pending[i]), Uploaded(ok), View())
      ensures !Stale(old(View()), old(pending[i])) ==> UploadBrings(old(View()), i, Uploaded(ok), View())
    {
      if !Stale(View(), pending[i]) {
        UploadReplyMeans(View(), i, Uploaded(ok));
      }
      ResolveKeeps(View(), i, Uploaded(ok));
      ReplyMeans(View(), i, Uploaded(ok));
      TakeUpload(i, forGen, id, withKey, ok);
    }

    method TakeUpload(ghost i: nat, forGen: nat, id: nat, withKey: nat, ok: bool)
      requires i < |pending| && pending[i] == UploadC(forGen, id, withKey)
      modifies this
      ensures View() == OnResolve(old(View()), i, Uploaded(ok))
    {
      var goOn := Arrive(i, forGen, false);
      if !goOn {
        return;
      }
      if !ok {
        ui := Error(UploadPhase, UPLOAD_FAILED);
        return;
      }
      ui := Committing;
      pending := pending + [CommitC(forGen, id, withKey)];
    }

    /** An image ready at once is activated; one still processing arms the poll of this attempt. */
    method ResolveCommit(ghost i: nat, forGen: nat, id: nat, ghost withKey: nat, status: Answer<ImageStatus, Code>)
      requires Valid()
      requires i < |pending| && pending[i] == CommitC(forGen, id, withKey)
      modifies this
      ensures Valid() && View() == OnResolve(old(View()), i, StatusIs(status))
      ensures ReplyAllows(old(View()), old(pending[i]), StatusIs(status), View())
      ensures !Stale(old(View()), old(pending[i])) ==> CommitBrings(old(View()), i, status, View())
    {
      if !Stale(View(), pending[i]) {
        CommitReplyMeans(View(), i, status);
      }
      ResolveKeeps(View(), i, StatusIs(status));
      ReplyMeans(View(), i, StatusIs(status));
      TakeCommit(i, forGen, id, withKey, status);
    }

    method TakeCommit(ghost i: nat, forGen: nat, id: nat, ghost withKey: nat, status: Answer<ImageStatus, Code>)
      requires i < |pending| && pending[i] == CommitC(forGen, id, withKey)
      modifies this
      ensures View() == OnResolve(old(View()), i, StatusIs(status))
    {
      var goOn := Arrive(i, forGen, false);
      if !goOn {
        return;
      }
      match status
      case Failure(code) => ReportFailure(CommitPhase, code);
      case Success(Ready) => Activate(id, false);
      case Success(Failed) =>
        preview := None;
        ui := DerivationFailed;
      case Success(Waiting) =>
        RearmPoll();
    }

    /** A poll of this attempt times out exactly on the last straw, and otherwise goes on, ends or activates as its answer
        says; its reads stay within the budget. */
    method ResolveStatus(ghost i: nat, forGen: nat, id: nat, status: Answer<ImageStatus, Code>)
      requires Valid()
      requires i < |pending| && pending[i] == StatusC(forGen, id)
      modifies this
      ensures Valid() && View() == OnResolve(old(View()), i, StatusIs(status))
      ensures ReplyAllows(old(View()), old(pending[i]), StatusIs(status), View())
      ensures readCount <= MAX_ATTEMPTS * MAX_FAILURES
      ensures !Stale(old(View()), old(pending[i])) ==> PollBrings(old(View()), i, status, View())
    {
      if !Stale(View(), pending[i]) {
        PollReplyMeans(View(), i, status);
      }
      ResolveKeeps(View(), i, StatusIs(status));
      ReplyMeans(View(), i, StatusIs(status));
      TakeStatus(i, forGen, id, status);
    }

    method TakeStatus(ghost i: nat, forGen: nat, id: nat, status: Answer<ImageStatus, Code>)
      requires i < |pending| && pending[i] == StatusC(forGen, id)
      modifies this
      ensures View() == OnResolve(old(View()), i, StatusIs(status))
    {
      var goOn := Arrive(i, forGen, true);
      if !goOn {
        return;
      }
      log := log + [Polled(forGen, status)];
      match status
      case Failure(code) =>
        if code == SESSION_EXPIRED {
          log := log + [SessionExpired(gen)];
          return;
        }
        failures := failures + 1;
        if failures >= MAX_FAILURES {
          ui := TimedOut(attempts);
          return;
        }
        SchedulePoll(forGen);
      case Success(found) =>
        failures := 0;
        match found {
          case Ready => Activate(id, true);
          case Failed =>
            preview := None;
            ui := DerivationFailed;
          case Waiting =>
            attempts := attempts + 1;
            if attempts >= MAX_ATTEMPTS {
              ui := TimedOut(attempts);
              return;
            }
            ui := Processing(attempts);
            SchedulePoll(forGen);
        }
    }

    /** The avatar on show changes only when the backend has set it for the newest attempt. */
    method ResolveActivate(ghost i: nat, forGen: nat, id: nat, fromPoll: bool, image: Answer<string, Code>)
      requires Valid()
      requires i < |pending| && pending[i] == ActivateC(forGen, id, fromPoll)
      modifies this
      ensures Valid() && View() == OnResolve(old(View()), i, AvatarSet(image))
      ensures ReplyAllows(old(View()), old(pending[i]), AvatarSet(image), View())
      ensures active == if !Stale(old(View()), old(pending[i])) && image.Success? then Some(image.value) else old(active)
      ensures !Stale(old(View()), old(pending[i])) ==> AvatarBrings(old(View()), i, image, View())
    {
      if !Stale(View(), pending[i]) {
        AvatarReplyMeans(View(), i, image);
      }
      ResolveKeeps(View(), i, AvatarSet(image));
      ReplyMeans(View(), i, AvatarSet(image));
      TakeActivate(i, forGen, id, fromPoll, image);
    }

    method TakeActivate(ghost i: nat, forGen: nat, id: nat, fromPoll: bool, image: Answer<string, Code>)
      requires i < |pending| && pending[i] == ActivateC(forGen, id, fromPoll)
      modifies this
      ensures View() == OnResolve(old(View()), i, AvatarSet(image))
    {
      var goOn := Arrive(i, forGen, fromPoll);
      if !goOn {
        return;
      }
      match image
      case Failure(code) => ReportFailure(ActivatePhase, code);
      case Success(img) =>
        active := Some(img);
        preview := None;
        ui := Active;
    }

    /** The avatar on show is cleared only when the backend has removed it and nothing newer was started. */
    method ResolveRemove(ghost i: nat, forGen: nat, image: Answer<string, Code>)
      requires Valid()
      requires i < |pending| && pending[i] == RemoveC(forGen)
      modifies this
      ensures Valid() && View() == OnResolve(old(View()), i, AvatarSet(image))
      ensures ReplyAllows(old(View()), old(pending[i]), AvatarSet(image), View())
      ensures active == if !Stale(old(View()), old(pending[i])) && image.Success? then None else old(active)
      ensures !Stale(old(View()), old(pending[i])) ==> AvatarBrings(old(View()), i, image, View())
    {
      if !Stale(View(), pending[i]) {
        AvatarReplyMeans(View(), i, image);
      }
      ResolveKeeps(View(), i, AvatarSet(image));
      ReplyMeans(View(), i, AvatarSet(image));
      TakeRemove(i, forGen, image);
    }

    method TakeRemove(ghost i: nat, forGen: nat, image: Answer<string, Code>)
      requires i < |pending| && pending[i] == RemoveC(forGen)
      modifies this
      ensures View() == OnResolve(old(View()), i, AvatarSet(image))
    {
      var goOn := Arrive(i, forGen, false);
      if !goOn {
        return;
      }
      match image
      case Failure(code) => ReportFailure(ActivatePhase, code);
      case Success(_) =>
        active := None;
        ui := Idle;
    }
  }
}
