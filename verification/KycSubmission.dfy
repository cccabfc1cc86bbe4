/** apps/web/hooks/useKycSubmission.ts: the wizard whose idempotency key stands for one exact payload. File
    checks and submits run in the background and may finish in any order, around any edit. */
module KycSubmission {
  import opened Wrappers

  datatype DocType = GovIdFront | GovIdBack | ProofOfAddress | Selfie

  datatype Code =
    | JURISDICTION_NOT_ELIGIBLE | KYC_ALREADY_PENDING | KYC_ALREADY_APPROVED | SESSION_EXPIRED
    | IDEMPOTENCY_KEY_MISMATCH | IDEMPOTENCY_KEY_IN_FLIGHT | RATE_LIMITED | SERVER_ERROR | OtherCode(name: string)

  datatype Problem = ChooseCountry | NotEligible

  datatype BlockReason = SubmissionPending | SubmissionApproved

  datatype Ui =
    | JurisdictionStep(inlineError: Option<Problem>)
    | DocumentsStep(slotError: Option<DocType>)
    | Review
    | Submitting
    | Confirmation(id: string)
    | Blocked(reason: BlockReason)
    | SessionExpired
    | Error(code: Code, retryable: bool)

  datatype Payload = Payload(jurisdiction: string, files: map<DocType, string>)

  datatype Sent = Sent(key: nat, payload: Payload)

  datatype FileCheck = FileCheck(doc: DocType, file: string)

  datatype Machine = Machine(
    ui: Ui,
    jurisdiction: Option<string>,
    files: map<DocType, string>,
    key: Option<nat>,           // the minted branch of KeyState
    busy: bool,
    cancelled: bool,
    saved: Option<string>,      // the progress kept in local storage
    minted: nat,
    checks: seq<FileCheck>,     // magic-byte checks still running
    submits: nat,               // submits not yet answered
    log: seq<Sent>
  )

  datatype Step =
    | SelectJurisdiction(code: string)
    | SetDocument(doc: DocType, file: string, valid: bool)
    | CheckResolves(i: nat, supported: bool)
    | RemoveDocument(doc: DocType)
    | NextStep
    | Back
    | Submit(filesValid: bool, uuidThrows: bool)
    | SubmitResolves(reply: Answer<string, Code>)
    | Retry
    | Reset
    | Unmount

  function Initial(saved: Option<string>): Machine {
    Machine(if saved.Some? then DocumentsStep(None) else JurisdictionStep(None), saved, map[], None, false, false,
            saved, 0, [], 0, [])
  }

  predicate AllDocuments(files: map<DocType, string>) {
    GovIdFront in files && GovIdBack in files && ProofOfAddress in files && Selfie in files
  }

  predicate Allowed(code: string) {
    code == "GB" || code == "US" || code == "SG"
  }

  /** What a submit would send now, if the schema lets it. */
  function CurrentPayload(m: Machine): (p: Option<Payload>) {
    if m.jurisdiction.Some? && Allowed(m.jurisdiction.value) && AllDocuments(m.files)
    then Some(Payload(m.jurisdiction.value, m.files)) else None
  }

  function OnSelectJurisdiction(m: Machine, code: string): (m': Machine) {
    m.(jurisdiction := Some(code), key := None, saved := Some(code))
  }

  function OnSetDocument(m: Machine, doc: DocType, file: string, valid: bool): (m': Machine) {
    if !valid then m.(ui := DocumentsStep(Some(doc))) else m.(checks := m.checks + [FileCheck(doc, file)])
  }

  function OnCheckResolves(m: Machine, i: nat, supported: bool): (m': Machine)
    requires i < |m.checks|
  {
    var c, n := m.checks[i], m.(checks := m.checks[..i] + m.checks[i + 1..]);
    if m.cancelled then n
    else if !supported then n.(ui := DocumentsStep(Some(c.doc)))
    else n.(key := None, files := m.files[c.doc := c.file], ui := DocumentsStep(None), saved := m.jurisdiction)
  }

  function OnRemoveDocument(m: Machine, doc: DocType): (m': Machine) {
    m.(key := None, files := m.files - {doc}, ui := DocumentsStep(None), saved := m.jurisdiction)
  }

  function OnNext(m: Machine): (m': Machine) {
    match m.ui
    case JurisdictionStep(_) =>
      if m.jurisdiction.None? then m.(ui := JurisdictionStep(Some(ChooseCountry)))
      else m.(ui := DocumentsStep(None), saved := m.jurisdiction)
    case DocumentsStep(_) => if AllDocuments(m.files) then m.(ui := Review, saved := m.jurisdiction) else m
    case _ => m
  }

  function OnBack(m: Machine): (m': Machine) {
    match m.ui
    case DocumentsStep(_) => m.(ui := JurisdictionStep(None), saved := m.jurisdiction)
    case Review => m.(ui := DocumentsStep(None), saved := m.jurisdiction)
    case Error(_, _) => m.(ui := DocumentsStep(None), saved := m.jurisdiction)
    case _ => m
  }

  function OnSubmit(m: Machine, filesValid: bool, uuidThrows: bool): (m': Machine) {
    if m.busy then m
    else if !filesValid || CurrentPayload(m).None? then m.(ui := DocumentsStep(None))
    else if m.key.None? && uuidThrows then m.(ui := Error(SERVER_ERROR, true))
    else
      var key := if m.key.None? then m.minted else m.key.value;
      m.(busy := true, key := Some(key), minted := if m.key.None? then m.minted + 1 else m.minted,
         ui := Submitting, submits := m.submits + 1, log := m.log + [Sent(key, CurrentPayload(m).value)])
  }

  function RouteFailure(m: Machine, code: Code): (m': Machine) {
    match code
    case JURISDICTION_NOT_ELIGIBLE => m.(key := None, ui := JurisdictionStep(Some(NotEligible)))
    case KYC_ALREADY_PENDING => m.(saved := None, ui := Blocked(SubmissionPending))
    case KYC_ALREADY_APPROVED => m.(saved := None, ui := Blocked(SubmissionApproved))
    case SESSION_EXPIRED => m.(ui := SessionExpired)
    case IDEMPOTENCY_KEY_MISMATCH => m.(key := None, ui := Error(code, true))
    case IDEMPOTENCY_KEY_IN_FLIGHT => m.(saved := None, ui := Blocked(SubmissionPending))
    case RATE_LIMITED => m.(ui := Error(code, false))
    case _ => m.(ui := Error(code, true))
  }

  function OnSubmitResolves(m: Machine, reply: Answer<string, Code>): (m': Machine)
    requires m.submits > 0
  {
    var n := m.(submits := m.submits - 1, busy := false);
    if m.cancelled then n
    else match reply
      case Success(id) => n.(key := None, saved := None, ui := Confirmation(id))
      case Failure(code) => RouteFailure(n, code)
  }

  function OnReset(m: Machine): (m': Machine) {
    m.(busy := false, key := None, jurisdiction := None, files := map[], saved := None, ui := JurisdictionStep(None))
  }

  predicate Enabled(m: Machine, step: Step) {
    match step
    case CheckResolves(i, _) => i < |m.checks|
    case SubmitResolves(_) => m.submits > 0
    case _ => true
  }

  function Next(m: Machine, step: Step): (m': Machine)
    requires Enabled(m, step)
  {
    match step
    case SelectJurisdiction(code) => OnSelectJurisdiction(m, code)
    case SetDocument(doc, file, valid) => OnSetDocument(m, doc, file, valid)
    case CheckResolves(i, supported) => OnCheckResolves(m, i, supported)
    case RemoveDocument(doc) => OnRemoveDocument(m, doc)
    case NextStep => OnNext(m)
    case Back => OnBack(m)
    case Submit(filesValid, uuidThrows) => OnSubmit(m, filesValid, uuidThrows)
    case SubmitResolves(reply) => OnSubmitResolves(m, reply)
    case Retry => if m.ui.Error? then m.(ui := Review) else m
    case Reset => OnReset(m)
    case Unmount => m.(cancelled := true)
  }

  ghost predicate Reaches(saved: Option<string>, steps: seq<Step>, m: Machine)
    decreases |steps|
  {
    if steps == [] then m == Initial(saved)
    else
      var last := steps[|steps| - 1];
      exists before :: Reaches(saved, steps[..|steps| - 1], before) && Enabled(before, last) && m == Next(before, last)
  }

  /** A minted key stands for the payload on screen: whatever was sent under it is what a submit would send. */
  ghost predicate Inv(m: Machine) {
    && (m.key.Some? ==> m.key.value < m.minted)
    && (forall i :: 0 <= i < |m.log| ==> m.log[i].key < m.minted)
    && (forall i :: 0 <= i < |m.log| && m.key == Some(m.log[i].key) ==> CurrentPayload(m) == Some(m.log[i].payload))
    && (forall i, j :: 0 <= i < |m.log| && 0 <= j < |m.log| && m.log[i].key == m.log[j].key ==>
          m.log[i].payload == m.log[j].payload)
  }

  // What sends nothing either drops the key or leaves the payload alone.
  lemma {:induction false} EditKeeps(m: Machine, n: Machine)
    requires Inv(m) && n.log == m.log && n.minted == m.minted
    requires n.key.None? || (n.key == m.key && n.jurisdiction == m.jurisdiction && n.files == m.files)
    ensures Inv(n)
  {
    assert n.key.Some? ==> CurrentPayload(n) == CurrentPayload(m);
  }

  lemma {:induction false} SubmitKeeps(m: Machine, filesValid: bool, uuidThrows: bool)
    requires Inv(m)
    ensures Inv(OnSubmit(m, filesValid, uuidThrows))
  {
    var n := OnSubmit(m, filesValid, uuidThrows);
    assert CurrentPayload(n) == CurrentPayload(m);
  }

  lemma {:induction false} StepKeepsInv(m: Machine, step: Step)
    requires Inv(m) && Enabled(m, step)
    ensures Inv(Next(m, step))
  {
    if step.Submit? {
      SubmitKeeps(m, step.filesValid, step.uuidThrows);
    } else {
      EditKeeps(m, Next(m, step));
    }
  }

  lemma {:induction false} EveryRun(saved: Option<string>, steps: seq<Step>, m: Machine)
    requires Reaches(saved, steps, m)
    ensures Inv(m)
    decreases |steps|
  {
    if steps != [] {
      var last, front := steps[|steps| - 1], steps[..|steps| - 1];
      var before :| Reaches(saved, front, before) && Enabled(before, last) && m == Next(before, last);
      EveryRun(saved, front, before);
      StepKeepsInv(before, last);
    }
  }

  /** Over every run, with edits, file checks and resets landing while submits are out: equal keys mean equal
      payloads, and while a key is minted everything sent under it is the payload on screen. */
  lemma {:induction false} OnePayloadPerKey(saved: Option<string>, steps: seq<Step>, m: Machine, i: nat, j: nat)
    requires Reaches(saved, steps, m) && i < |m.log| && j < |m.log|
    ensures m.log[i].key == m.log[j].key ==> m.log[i].payload == m.log[j].payload
    ensures m.key == Some(m.log[i].key) ==> CurrentPayload(m) == Some(m.log[i].payload)
  {
    EveryRun(saved, steps, m);
  }

  // ---- What a caller may count on ----

  /** The key is dropped: the next submit takes one that no request has used. */
  ghost predicate NeedsNewKey(m: Machine) {
    m.key == None && forall i :: 0 <= i < |m.log| ==> m.log[i].key < m.minted
  }

  /** Nothing was sent, and either the next submit needs a new key or neither key nor payload has changed. */
  ghost predicate OnlyEdits(m: Machine, n: Machine) {
    n.log == m.log && (NeedsNewKey(n) || (n.key == m.key && CurrentPayload(n) == CurrentPayload(m)))
  }

  /** A submit sends something exactly when it may. */
  predicate MaySubmit(m: Machine, filesValid: bool, uuidThrows: bool) {
    !m.busy && filesValid && CurrentPayload(m).Some? && (m.key.Some? || !uuidThrows)
  }

  /** What a failed submit shows, and which progress it forgets. */
  predicate FailureShows(m: Machine, code: Code, n: Machine) {
    && (n.ui == JurisdictionStep(Some(NotEligible)) <==> code == JURISDICTION_NOT_ELIGIBLE)
    && (n.ui == Blocked(SubmissionPending) <==> code == KYC_ALREADY_PENDING || code == IDEMPOTENCY_KEY_IN_FLIGHT)
    && (n.ui == Blocked(SubmissionApproved) <==> code == KYC_ALREADY_APPROVED)
    && (n.ui == SessionExpired <==> code == SESSION_EXPIRED)
    && (n.ui.Error? ==> n.ui == Error(code, code != RATE_LIMITED))
    && (n.ui.Error? || n.ui == SessionExpired || n.ui.Blocked? || n.ui.JurisdictionStep?)
    && (n.key == None <==> code == JURISDICTION_NOT_ELIGIBLE || code == IDEMPOTENCY_KEY_MISMATCH || m.key == None)
    && n.saved == (if n.ui.Blocked? then None else m.saved)
    && n.jurisdiction == m.jurisdiction && n.files == m.files
  }

  lemma {:induction false} SubmitMeans(m: Machine, filesValid: bool, uuidThrows: bool)
    requires Inv(m)
    ensures var n := OnSubmit(m, filesValid, uuidThrows);
            if MaySubmit(m, filesValid, uuidThrows) then
              && n.key.Some? && n.busy && (m.key.Some? ==> n.key == m.key)
              && n.log == m.log + [Sent(n.key.value, CurrentPayload(m).value)]
              && (forall i :: 0 <= i < |m.log| && m.log[i].key == n.key.value ==> m.log[i].payload == CurrentPayload(m).value)
              && n.ui == Submitting && n.submits == m.submits + 1
            else
              && n.log == m.log && n.key == m.key && n.busy == m.busy && n.submits == m.submits
              && (!m.busy ==> n.ui == if !filesValid || CurrentPayload(m).None? then DocumentsStep(None)
                                      else Error(SERVER_ERROR, true))
  {
  }

  /** A reply frees the latch, sends nothing and drops the key or leaves the payload alone. */
  lemma {:induction false} ResolveMeans(m: Machine, reply: Answer<string, Code>)
    requires Inv(m) && m.submits > 0
    ensures var n := OnSubmitResolves(m, reply);
            && Inv(n) && OnlyEdits(m, n) && !n.busy
            && (!m.cancelled && reply.Success? ==>
                  n.ui == Confirmation(reply.value) && NeedsNewKey(n) && n.saved == None)
            && (!m.cancelled && reply.Failure? ==> FailureShows(m, reply.code, n))
  {
    EditKeeps(m, OnSubmitResolves(m, reply));
  }

  // ---- The hook ----

  class KycHook {
    var ui: Ui
    var jurisdiction: Option<string>
    var files: map<DocType, string>
    var key: Option<nat>
    var busy: bool
    var cancelled: bool
    var saved: Option<string>
    var minted: nat
    ghost var checks: seq<FileCheck>
    ghost var submits: nat
    ghost var log: seq<Sent>

    ghost function View(): Machine
      reads this
    {
      Machine(ui, jurisdiction, files, key, busy, cancelled, saved, minted, checks, submits, log)
    }

    ghost predicate Valid()
      reads this
    {
      Inv(View())
    }

    constructor (restored: Option<string>)
      ensures Valid() && View() == Initial(restored)
    {
      ui := if restored.Some? then DocumentsStep(None) else JurisdictionStep(None);
      jurisdiction, files, key, saved := restored, map[], None, restored;
      busy, cancelled, minted := false, false, 0;
      checks, submits, log := [], 0, [];
    }

    method Persist()
      modifies this`saved
      ensures saved == jurisdiction
    {
      saved := jurisdiction;
    }

    /** The payload changes, so the key is dropped. */
    method SelectJurisdiction(code: string)
      requires Valid()
      modifies this
      ensures Valid() && View() == OnSelectJurisdiction(old(View()), code)
      ensures NeedsNewKey(View()) && OnlyEdits(old(View()), View())
      ensures jurisdiction == Some(code) && saved == Some(code) && files == old(files) && ui == old(ui)
    {
      jurisdiction := Some(code);
      key := None;
      Persist();
    }

    /** A picked file changes nothing that would be sent until its check has passed. */
    method SetDocument(doc: DocType, file: string, valid: bool)
      requires Valid()
      modifies this
      ensures Valid() && View() == OnSetDocument(old(View()), doc, file, valid)
      ensures key == old(key) && CurrentPayload(View()) == old(CurrentPayload(View())) && log == old(log)
      ensures valid ==> checks == old(checks) + [FileCheck(doc, file)] && ui == old(ui)
      ensures !valid ==> checks == old(checks) && ui == DocumentsStep(Some(doc))
    {
      if !valid {
        ui := DocumentsStep(Some(doc));
        return;
      }
      checks := checks + [FileCheck(doc, file)];
    }

    /** A check that passes while mounted, whatever was submitted meanwhile, stores its file and drops the key. */
    method ResolveCheck(ghost i: nat, doc: DocType, file: string, supported: bool)
      requires Valid()
      requires i < |checks| && checks[i] == FileCheck(doc, file)
      modifies this
      ensures Valid() && View() == OnCheckResolves(old(View()), i, supported)
      ensures OnlyEdits(old(View()), View())
      ensures !cancelled && supported ==> NeedsNewKey(View()) && files == old(files)[doc := file] && ui == DocumentsStep(None)
      ensures !cancelled && !supported ==> ui == DocumentsStep(Some(doc))
      ensures cancelled || !supported ==> files == old(files) && key == old(key)
    {
      checks := checks[..i] + checks[i + 1..];
      if cancelled {
        return;
      }
      if !supported {
        ui := DocumentsStep(Some(doc));
        return;
      }
      key := None;
      files := files[doc := file];
      ui := DocumentsStep(None);
      Persist();
    }

    /** The payload changes, so the key is dropped. */
    method RemoveDocument(doc: DocType)
      requires Valid()
      modifies this
      ensures Valid() && View() == OnRemoveDocument(old(View()), doc)
      ensures NeedsNewKey(View()) && OnlyEdits(old(View()), View())
      ensures doc !in files && (forall d :: d != doc && d in old(files) ==> d in files && files[d] == old(files)[d])
      ensures (forall d :: d in files ==> d in old(files)) && jurisdiction == old(jurisdiction)
    {
      key := None;
      files := files - {doc};
      ui := DocumentsStep(None);
      Persist();
    }

    /** Sends the payload on screen, if and only if it may: under the minted key, which no request with another payload
        has used, or under a new one. */
    method SubmitKyc(filesValid: bool, uuidThrows: bool)
      requires Valid()
      modifies this
      ensures Valid() && View() == OnSubmit(old(View()), filesValid, uuidThrows)
      ensures if MaySubmit(old(View()), filesValid, uuidThrows) then
                && key.Some? && log == old(log) + [Sent(key.value, Payload(old(jurisdiction).value, old(files)))]
                && (forall i :: 0 <= i < |old(log)| && old(log)[i].key == key.value ==>
                      old(log)[i].payload == Payload(old(jurisdiction).value, old(files)))
                && ui == Submitting && busy
              else
                && log == old(log) && key == old(key) && busy == old(busy)
                && (!old(busy) ==> ui == if !filesValid || CurrentPayload(old(View())).None? then DocumentsStep(None)
                                         else Error(SERVER_ERROR, true))
    {
      SubmitKeeps(View(), filesValid, uuidThrows);
      SubmitMeans(View(), filesValid, uuidThrows);
      Send(filesValid, uuidThrows);
    }

    method Send(filesValid: bool, uuidThrows: bool)
      modifies this
      ensures View() == OnSubmit(old(View()), filesValid, uuidThrows)
    {
      if busy {
        return;
      }
      if !filesValid || jurisdiction.None? || !Allowed(jurisdiction.value) || !AllDocuments(files) {
        ui := DocumentsStep(None);
        return;
      }
      busy := true;
      if key.None? {
        if uuidThrows {
          ui := Error(SERVER_ERROR, true);
          busy := false;
          return;
        }
        key := Some(minted);
        minted := minted + 1;
      }
      ui := Submitting;
      submits := submits + 1;
      log := log + [Sent(key.value, Payload(jurisdiction.value, files))];
    }

    /** Frees the latch and sends nothing; a key that is kept still stands for the payload on screen. */
    method ResolveSubmit(reply: Answer<string, Code>)
      requires Valid()
      requires submits > 0
      modifies this
      ensures Valid() && View() == OnSubmitResolves(old(View()), reply)
      ensures OnlyEdits(old(View()), View()) && !busy
      ensures !cancelled && reply.Success? ==> ui == Confirmation(reply.value) && NeedsNewKey(View()) && saved == None
      ensures !cancelled && reply.Failure? ==> FailureShows(old(View()), reply.code, View())
    {
      ResolveMeans(View(), reply);
      TakeReply(reply);
    }

    method TakeReply(reply: Answer<string, Code>)
      requires submits > 0
      modifies this
      ensures View() == OnSubmitResolves(old(View()), reply)
    {
      submits := submits - 1;
      busy := false;
      if cancelled {
        return;
      }
      match reply
      case Success(id) =>
        key := None;
        saved := None;
        ui := Confirmation(id);
      case Failure(code) => RouteResult(code);
    }

    method RouteResult(code: Code)
      modifies this
      ensures View() == RouteFailure(old(View()), code)
    {
      match code
      case JURISDICTION_NOT_ELIGIBLE =>
        key := None;
        ui := JurisdictionStep(Some(NotEligible));
      case KYC_ALREADY_PENDING =>
        saved := None;
        ui := Blocked(SubmissionPending);
      case KYC_ALREADY_APPROVED =>
        saved := None;
        ui := Blocked(SubmissionApproved);
      case SESSION_EXPIRED =>
        ui := SessionExpired;
      case IDEMPOTENCY_KEY_MISMATCH =>
        key := None;
        ui := Error(code, true);
      case IDEMPOTENCY_KEY_IN_FLIGHT =>
        saved := None;
        ui := Blocked(SubmissionPending);
      case RATE_LIMITED =>
        ui := Error(code, false);
      case _ =>
        ui := Error(code, true);
    }

    method NextPage()
      requires Valid()
      modifies this
      ensures Valid() && View() == OnNext(old(View()))
      ensures old(ui.JurisdictionStep?) ==> ui == if jurisdiction.Some? then DocumentsStep(None)
                                                  else JurisdictionStep(Some(ChooseCountry))
      ensures old(ui.DocumentsStep?) ==> ui == if AllDocuments(files) then Review else old(ui)
      ensures OnlyEdits(old(View()), View())
    {
      if ui.JurisdictionStep? {
        if jurisdiction.None? {
          ui := JurisdictionStep(Some(ChooseCountry));
          return;
        }
        ui := DocumentsStep(None);
        Persist();
      } else if ui.DocumentsStep? && AllDocuments(files) {
        ui := Review;
        Persist();
      }
    }

    method BackPage()
      requires Valid()
      modifies this
      ensures Valid() && View() == OnBack(old(View()))
      ensures old(ui.DocumentsStep?) ==> ui == JurisdictionStep(None)
      ensures old(ui.Review? || ui.Error?) ==> ui == DocumentsStep(None)
      ensures OnlyEdits(old(View()), View())
    {
      if ui.DocumentsStep? {
        ui := JurisdictionStep(None);
        Persist();
      } else if ui.Review? || ui.Error? {
        ui := DocumentsStep(None);
        Persist();
      }
    }

    method RetrySubmit()
      requires Valid()
      modifies this
      ensures Valid() && View() == if old(ui).Error? then old(View()).(ui := Review) else old(View())
      ensures OnlyEdits(old(View()), View())
    {
      if ui.Error? {
        ui := Review;
      }
    }

    /** Sends nothing and drops the key, the payload and the saved progress. */
    method ResetWizard()
      requires Valid()
      modifies this
      ensures Valid() && View() == OnReset(old(View()))
      ensures NeedsNewKey(View()) && log == old(log) && CurrentPayload(View()) == None && saved == None
      ensures files == map[] && ui == JurisdictionStep(None) && !busy
    {
      busy := false;
      key := None;
      jurisdiction := None;
      files := map[];
      saved := None;
      ui := JurisdictionStep(None);
    }
  }
}
