/**
 * The invoice side of the HKA integration (`account.move`): the per-invoice status
 * machine, the two scheduled passes that drive it (send pending invoices, download
 * missing files), their selection rules and the posting hook that queues invoices.
 *
 * The first half states each operation as a function of the invoice's integration
 * state; the second half is the `Invoice` class whose methods update that state in
 * place and are proved to follow those functions.
 */
module AccountMove {
  import opened Wrappers
  import opened HkaPayload
  import opened HkaClient

  datatype HkaStatus = Unset | ToSend | Sent | Accepted | Rejected

  datatype MoveType = OutInvoice | OutRefund | InInvoice | InRefund | OutReceipt | InReceipt | Entry

  datatype JournalType = Sale | Purchase | Cash | Bank | General

  datatype MoveState = Draft | Posted | Cancel

  datatype FileType = XML | PDF | CDR

  /** Failed sends after which an invoice is no longer put back in the queue. */
  const MAX_RETRIES := 3

  /** The message `button_send_hka` raises for a move that is neither an invoice nor a credit note. */
  const ONLY_INVOICES := "Solo facturas o notas de crédito"

  /** The `tipoArchivo` a file type is requested as. */
  function FileTypeName(t: FileType): string
  {
    match t
    case XML => "XML"
    case PDF => "PDF"
    case CDR => "CDR"
  }

  /** `_FILE_TYPES`: the extension and MIME type a downloaded file is stored with. */
  function FileTypeInfo(t: FileType): (info: (string, string))
  {
    match t
    case XML => ("xml", "application/xml")
    case PDF => ("pdf", "application/pdf")
    case CDR => ("zip", "application/zip")
  }

  /** A stored attachment as far as this model records it: its name and MIME type. */
  datatype Attachment = Attachment(name: string, mimetype: string)

  /** `_attach_file`: the attachment is named after the invoice with the type's extension. */
  function AttachmentFor(invoiceName: string, t: FileType): Attachment
  {
    Attachment(invoiceName + "." + FileTypeInfo(t).0, FileTypeInfo(t).1)
  }

  /**
   * The three files of one invoice are stored under three different names, each the
   * invoice name followed by a dot, and each with the MIME type its extension names.
   */
  lemma AttachmentNames(invoiceName: string, t: FileType, u: FileType)
    ensures var a := AttachmentFor(invoiceName, t);
      && a.name[..|invoiceName| + 1] == invoiceName + "."
      && a.mimetype == "application/" + FileTypeInfo(t).0
    ensures t != u ==> AttachmentFor(invoiceName, t).name != AttachmentFor(invoiceName, u).name
  {
  }

  /** The integration fields of one invoice. */
  datatype Integration = Integration(
    status: HkaStatus,
    cpeNumber: Option<string>,
    sentDate: Option<int>,
    errorMsg: Option<string>,
    retryCount: int,
    xmlFile: bool,
    pdfFile: bool,
    cdrFile: bool)

  /** The accounting fields the selection rules look at. */
  datatype MoveKind = MoveKind(moveType: MoveType, journalType: JournalType, state: MoveState)

  // ---------------------------------------------------------------- selection and queueing

  predicate IsSaleInvoice(k: MoveKind)
  {
    k.moveType == OutInvoice && k.journalType == Sale
  }

  /** `_domain_pending_send`. */
  predicate PendingSend(k: MoveKind, s: Integration)
  {
    s.status == ToSend && IsSaleInvoice(k) && k.state == Posted
  }

  predicate HasFile(s: Integration, t: FileType)
  {
    match t
    case XML => s.xmlFile
    case PDF => s.pdfFile
    case CDR => s.cdrFile
  }

  /** `_domain_pending_download`. */
  predicate PendingDownload(k: MoveKind, s: Integration)
  {
    s.status == Sent && IsSaleInvoice(k) && k.state == Posted && (!s.xmlFile || !s.pdfFile || !s.cdrFile)
  }

  /**
   * The two search domains never overlap: an invoice waits either to be sent or for its
   * files, and one waiting for its files has at least one missing.
   */
  lemma PendingDomainsDisjoint(k: MoveKind, s: Integration)
    ensures !(PendingSend(k, s) && PendingDownload(k, s))
    ensures PendingDownload(k, s) ==> exists t: FileType :: !HasFile(s, t)
  {
    if PendingDownload(k, s) {
      var t := if !s.xmlFile then XML else if !s.pdfFile then PDF else CDR;
      assert !HasFile(s, t);
    }
  }

  /** The accounting side of posting (`super().action_post()`), reduced to the new state. */
  function PostKind(k: MoveKind): MoveKind
  {
    k.(state := Posted)
  }

  /** `action_post`: a customer invoice in a sale journal is queued; anything else keeps its status. */
  function PostStep(k: MoveKind, s: Integration): Integration
  {
    if IsSaleInvoice(k) then s.(status := ToSend) else s
  }

  /**
   * Posting queues exactly the customer invoices of sale journals: after it, an
   * invoice is pending send if and only if it is one; nothing but the status changes.
   */
  lemma PostingQueues(k: MoveKind, s: Integration)
    ensures PendingSend(PostKind(k), PostStep(k, s)) <==> IsSaleInvoice(k)
    ensures PostStep(k, s).(status := s.status) == s
    ensures !IsSaleInvoice(k) ==> PostStep(k, s) == s
  {
  }

  // ---------------------------------------------------------------- sending

  /**
   * `_handle_retry`: a failed send counts one more retry and is queued again while
   * fewer than `MAX_RETRIES` have been counted, otherwise its status stays; a
   * successful send clears the count and keeps its status. Nothing else changes.
   */
  function RetryStep(s: Integration, sent: bool): (r: Integration)
    ensures r.retryCount == if sent then 0 else s.retryCount + 1
    ensures r.status == if !sent && s.retryCount + 1 < MAX_RETRIES then ToSend else s.status
    ensures r.(status := s.status, retryCount := s.retryCount) == s
  {
    if !sent then
      var s1 := s.(retryCount := s.retryCount + 1);
      if s1.retryCount >= MAX_RETRIES then s1 else s1.(status := ToSend)
    else
      s.(retryCount := 0)
  }

  /** Whether a send reply carries an XML document to attach (`resp.get('xml') or ''`). */
  predicate CarriesXml(r: SendResponse)
  {
    r.xml.Some? && r.xml.value.text != ""
  }

  /**
   * The effect of one `_send_to_hka`: the token cache and integration state after it,
   * what it returns (`Success`) or raises (`Failure`), and whether it stored the XML.
   */
  datatype SendEffect = SendEffect(cache: TokenCache, state: Integration, result: Result<bool>, attached: bool)

  /** The clock readings and replies one send of one invoice meets. */
  datatype SendAttempt = SendAttempt(
    emissionTime: string,    // the header's emission time, already formatted
    clock: int,              // the time `_ensure_token` compares with the expiry
    sentAt: int,             // the time written as the sent date
    auth: AuthResponse,      // the reply an authentication would get
    reply: Reply<SendResponse>)

  /** The effect of a reply on the invoice: its new state, what is returned or raised, whether the XML was stored. */
  datatype ReplyEffect = ReplyEffect(state: Integration, result: Result<bool>, attached: bool)

  /**
   * What `_send_to_hka` does with a reply it received: a falsy `estatus` rejects; otherwise
   * the invoice is marked sent and the XML, when the reply carries one, is decoded and
   * stored. A decoding error raises after the invoice was already marked sent.
   */
  function ApplyReply(s: Integration, r: SendResponse, sentAt: int): ReplyEffect
  {
    if !r.estatus then
      ReplyEffect(s.(status := Rejected, errorMsg := r.mensaje), Success(false), false)
    else
      var sent := s.(status := Sent, cpeNumber := r.numeracion, sentDate := Some(sentAt), errorMsg := None);
      if !CarriesXml(r) then ReplyEffect(sent, Success(true), false)
      else if r.xml.value.defect.Some? then ReplyEffect(sent, Failure(r.xml.value.defect.value), false)
      else ReplyEffect(sent.(xmlFile := true), Success(true), true)
  }

  /**
   * `_send_to_hka`: build the payload, send it (which may authenticate first), and
   * apply the reply. Building, authenticating and posting may each raise; a raise
   * leaves the invoice as it was.
   */
  function SendStep(c: TokenCache, s: Integration, d: InvoiceData, a: SendAttempt): SendEffect
  {
    match BuildFailure(d)
    case Some(e) => SendEffect(c, s, Failure(BuildErrorText(e)), false)
    case None =>
      var step := EnsureStep(c, a.clock, a.auth);
      if step.error.Some? then SendEffect(step.cache, s, Failure(step.error.value), false)
      else
        match a.reply
        case Raised(e) => SendEffect(step.cache, s, Failure(e), false)
        case Replied(r) =>
          var e := ApplyReply(s, r, a.sentAt);
          SendEffect(step.cache, e.state, e.result, e.attached)
  }

  /** The `except` branch of the send pass: record the error and count a retry; the status stays. */
  function SendFailed(s: Integration, message: string): Integration
  {
    s.(errorMsg := Some(message), retryCount := s.retryCount + 1)
  }

  /** One iteration of `_cron_send_hka`: send, then retry bookkeeping, or the `except` branch. */
  function CronSendStep(c: TokenCache, job: SendJob): (TokenCache, Integration)
  {
    var e := SendStep(c, job.state, job.data, job.attempt);
    match e.result
    case Success(sent) => (e.cache, RetryStep(e.state, sent))
    case Failure(m) => (e.cache, SendFailed(e.state, m))
  }

  /** One invoice of a send pass: its state when selected, its data, and what its send meets. */
  datatype SendJob = SendJob(state: Integration, data: InvoiceData, attempt: SendAttempt)

  /**
   * `_cron_send_hka` over the selected invoices, in order: each is processed whatever
   * happened to the ones before; the token cache is carried from one to the next.
   */
  function SendPass(c: TokenCache, jobs: seq<SendJob>): (r: (TokenCache, seq<Integration>))
    ensures |r.1| == |jobs|
    decreases |jobs|
  {
    if jobs == [] then (c, [])
    else
      var before := SendPass(c, jobs[..|jobs| - 1]);
      var last := jobs[|jobs| - 1];
      var after := CronSendStep(before.0, last);
      (after.0, before.1 + [after.1])
  }

  lemma SendPassStep(c: TokenCache, jobs: seq<SendJob>, i: nat, cache: TokenCache, done: seq<Integration>)
    requires i < |jobs|
    requires SendPass(c, jobs[..i]) == (cache, done)
    ensures var after := CronSendStep(cache, jobs[i]);
      SendPass(c, jobs[..i + 1]) == (after.0, done + [after.1])
  {
    assert jobs[..i + 1][..i] == jobs[..i];
  }

  /** A send whose payload builds, whose token step raises nothing, and whose reply arrives. */
  predicate Delivers(c: TokenCache, d: InvoiceData, a: SendAttempt)
  {
    BuildFailure(d).None? && EnsureStep(c, a.clock, a.auth).error.None? && a.reply.Replied?
  }

  /**
   * A rejected send: the status becomes `rejected`, the message is stored, `False` is
   * returned, and the CPE number, sent date and XML flag stay. The pass then counts a
   * retry and queues the invoice again unless `MAX_RETRIES` is reached.
   */
  lemma RejectedSend(c: TokenCache, s: Integration, d: InvoiceData, a: SendAttempt)
    requires Delivers(c, d, a) && !a.reply.body.estatus
    ensures var e := SendStep(c, s, d, a);
      && e.result == Success(false) && !e.attached
      && e.state == s.(status := Rejected, errorMsg := a.reply.body.mensaje)
    ensures var r := CronSendStep(c, SendJob(s, d, a)).1;
      && r.retryCount == s.retryCount + 1
      && r.status == (if s.retryCount + 1 < MAX_RETRIES then ToSend else Rejected)
      && r.errorMsg == a.reply.body.mensaje
      && r.cpeNumber == s.cpeNumber && r.sentDate == s.sentDate && r.xmlFile == s.xmlFile
    ensures CronSendStep(c, SendJob(s, d, a)).1 == Rejection(s, a.reply.body.mensaje)
  {
  }

  /**
   * An accepted send: the status becomes `sent`, the CPE number is the reply's
   * `numeracion`, the sent date is recorded, the error is cleared and `True` is
   * returned; the XML is stored, and its flag set, exactly when the reply carries one.
   * The pass then clears the retry count.
   */
  lemma AcceptedSend(c: TokenCache, s: Integration, d: InvoiceData, a: SendAttempt)
    requires Delivers(c, d, a) && a.reply.body.estatus
    requires CarriesXml(a.reply.body) ==> a.reply.body.xml.value.defect.None?
    ensures var e := SendStep(c, s, d, a);
      && e.result == Success(true)
      && e.attached == CarriesXml(a.reply.body)
      && e.state.xmlFile == (s.xmlFile || CarriesXml(a.reply.body))
    ensures var r := CronSendStep(c, SendJob(s, d, a)).1;
      && r.status == Sent && r.cpeNumber == a.reply.body.numeracion
      && r.sentDate == Some(a.sentAt) && r.errorMsg.None? && r.retryCount == 0
      && r.pdfFile == s.pdfFile && r.cdrFile == s.cdrFile
  {
  }

  /**
   * A send that raises (payload, authentication or transport) stores the text of what
   * it raised and counts a retry, but leaves the status: such a failure is not capped
   * by `MAX_RETRIES`. The payload is built first, then the token ensured, then the post made.
   */
  lemma RaisingSend(c: TokenCache, s: Integration, d: InvoiceData, a: SendAttempt)
    requires !Delivers(c, d, a)
    ensures var r := CronSendStep(c, SendJob(s, d, a)).1;
      && r.errorMsg.Some? && r.retryCount == s.retryCount + 1
      && r == s.(errorMsg := r.errorMsg, retryCount := s.retryCount + 1)
    ensures var r := CronSendStep(c, SendJob(s, d, a)).1;
      var step := EnsureStep(c, a.clock, a.auth);
      && (BuildFailure(d).Some? ==> r.errorMsg == Some(BuildErrorText(BuildFailure(d).value)))
      && (BuildFailure(d).None? && step.error.Some? ==> r.errorMsg == step.error)
      && (BuildFailure(d).None? && step.error.None? && a.reply.Raised? ==> r.errorMsg == Some(a.reply.error))
  {
  }

  /**
   * An accepted send whose XML does not decode: the invoice was already marked `sent`
   * with its CPE number and sent date when the decoder raised, so it stays `sent`; the
   * pass stores the decoder's message and counts a retry instead of clearing the count.
   */
  lemma UndecodableXmlSend(c: TokenCache, s: Integration, d: InvoiceData, a: SendAttempt)
    requires Delivers(c, d, a) && a.reply.body.estatus
    requires CarriesXml(a.reply.body) && a.reply.body.xml.value.defect.Some?
    ensures var e := SendStep(c, s, d, a);
      e.result == Failure(a.reply.body.xml.value.defect.value) && !e.attached
    ensures var r := CronSendStep(c, SendJob(s, d, a)).1;
      && r.status == Sent && r.cpeNumber == a.reply.body.numeracion && r.sentDate == Some(a.sentAt)
      && r.errorMsg == Some(a.reply.body.xml.value.defect.value)
      && r.retryCount == s.retryCount + 1
      && r.xmlFile == s.xmlFile && r.pdfFile == s.pdfFile && r.cdrFile == s.cdrFile
  {
  }

  /** The state after a rejected send and its retry bookkeeping, as `RejectedSend` describes it. */
  function Rejection(s: Integration, message: Option<string>): Integration
  {
    RetryStep(s.(status := Rejected, errorMsg := message), false)
  }

  /** Successive rejections, one message each. */
  function Rejections(s: Integration, messages: seq<Option<string>>): Integration
    decreases |messages|
  {
    if messages == [] then s else Rejections(Rejection(s, messages[0]), messages[1..])
  }

  /**
   * After `n >= 1` rejections the count has grown by `n`; the invoice is queued again
   * exactly while the count is below `MAX_RETRIES`, and is `rejected` from then on.
   */
  lemma {:induction false} RejectionsCount(s: Integration, messages: seq<Option<string>>)
    requires |messages| >= 1
    ensures Rejections(s, messages).retryCount == s.retryCount + |messages|
    ensures Rejections(s, messages).status == if s.retryCount + |messages| < MAX_RETRIES then ToSend else Rejected
    decreases |messages|
  {
    if |messages| > 1 {
      RejectionsCount(Rejection(s, messages[0]), messages[1..]);
    }
  }

  /**
   * Three rejections of a fresh invoice leave it `rejected` with three retries counted,
   * outside the send selection, so no fourth attempt is made without intervention.
   */
  lemma ThreeRejectionsExhaust(k: MoveKind, s: Integration, m1: Option<string>, m2: Option<string>, m3: Option<string>)
    requires s.retryCount == 0
    ensures var r := Rejections(s, [m1, m2, m3]);
      r.retryCount == MAX_RETRIES && r.status == Rejected && !PendingSend(k, r)
  {
    RejectionsCount(s, [m1, m2, m3]);
  }

  /** Successive sends that raise. */
  function Failures(s: Integration, messages: seq<string>): Integration
    decreases |messages|
  {
    if messages == [] then s else Failures(SendFailed(s, messages[0]), messages[1..])
  }

  /**
   * Any number of raising sends only count retries: the status never moves, so an
   * invoice that was pending send stays pending however many times it fails this way.
   */
  lemma {:induction false} FailuresKeepQueued(k: MoveKind, s: Integration, messages: seq<string>)
    ensures Failures(s, messages).status == s.status
    ensures Failures(s, messages).retryCount == s.retryCount + |messages|
    ensures PendingSend(k, s) ==> PendingSend(k, Failures(s, messages))
    decreases |messages|
  {
    if messages != [] {
      FailuresKeepQueued(k, SendFailed(s, messages[0]), messages[1..]);
    }
  }

  /**
   * Every invoice of a send pass is processed: the state each ends in is its own
   * `CronSendStep` from the cache the previous one left, whatever the others did.
   */
  lemma {:induction false} SendPassProcessesAll(c: TokenCache, jobs: seq<SendJob>, k: nat)
    requires k < |jobs|
    ensures var before := SendPass(c, jobs[..k]);
      SendPass(c, jobs).1[k] == CronSendStep(before.0, jobs[k]).1
    decreases |jobs|
  {
    if k < |jobs| - 1 {
      var init := jobs[..|jobs| - 1];
      assert init[..k] == jobs[..k];
      SendPassProcessesAll(c, init, k);
    } else {
      assert jobs[..|jobs| - 1] == jobs[..k];
    }
  }

  // ---------------------------------------------------------------- downloading

  /** The clock reading and replies one file download meets. */
  datatype Fetch = Fetch(clock: int, auth: AuthResponse, reply: Reply<DownloadResponse>)

  /** A download reply that yields a file: code 0 and a non-empty, decodable `archivo`. */
  predicate Delivered(r: DownloadResponse)
  {
    r.codigo == Some(0) && r.archivo.Some? && r.archivo.value.text != "" && r.archivo.value.defect.None?
  }

  function WithFile(s: Integration, t: FileType): Integration
  {
    match t
    case XML => s.(xmlFile := true)
    case PDF => s.(pdfFile := true)
    case CDR => s.(cdrFile := true)
  }

  /** The effect of one `_download_and_attach`: cache, state, and whether a file was stored. */
  datatype FetchEffect = FetchEffect(cache: TokenCache, state: Integration, attached: bool)

  /**
   * `_download_and_attach`: the flag of type `t` is set, and the file stored, only when
   * the token step raised nothing and the reply delivered a file; every other outcome,
   * raised or not, changes nothing on the invoice.
   */
  function FetchStep(c: TokenCache, s: Integration, t: FileType, f: Fetch): FetchEffect
  {
    var step := EnsureStep(c, f.clock, f.auth);
    if step.error.None? && f.reply.Replied? && Delivered(f.reply.body) then FetchEffect(step.cache, WithFile(s, t), true)
    else FetchEffect(step.cache, s, false)
  }

  /**
   * The converse of a delivered download: a flag that a download sets was set only
   * because the token step raised nothing and the reply delivered a decodable file.
   */
  lemma FetchGainsOnlyWhenDelivered(c: TokenCache, s: Integration, t: FileType, f: Fetch)
    requires !HasFile(s, t) && HasFile(FetchStep(c, s, t, f).state, t)
    ensures EnsureStep(c, f.clock, f.auth).error.None?
    ensures f.reply.Replied? && Delivered(f.reply.body)
    ensures FetchStep(c, s, t, f).attached
  {
  }

  /** What each of the three downloads of one invoice meets. */
  datatype Fetches = Fetches(xml: Fetch, pdf: Fetch, cdr: Fetch)

  /** The types `_cron_download_documents` asks for: the missing ones, in the order XML, PDF, CDR. */
  function MissingTypes(s: Integration): seq<FileType>
  {
    (if !s.xmlFile then [XML] else []) + (if !s.pdfFile then [PDF] else []) + (if !s.cdrFile then [CDR] else [])
  }

  /** One `if not invoice.hka_<type>_file:` block of `_cron_download_documents`. */
  function FetchIfMissing(c: TokenCache, s: Integration, t: FileType, f: Fetch): FetchEffect
  {
    if !HasFile(s, t) then FetchStep(c, s, t, f) else FetchEffect(c, s, false)
  }

  /**
   * One iteration of `_cron_download_documents`: a download per missing file, in order;
   * each flag is looked at after the downloads before it.
   */
  function DownloadStep(c: TokenCache, s: Integration, fs: Fetches): (TokenCache, Integration)
  {
    var x := FetchIfMissing(c, s, XML, fs.xml);
    var p := FetchIfMissing(x.cache, x.state, PDF, fs.pdf);
    var r := FetchIfMissing(p.cache, p.state, CDR, fs.cdr);
    (r.cache, r.state)
  }

  /** One invoice of a download pass: its state when selected, its name and what its downloads meet. */
  datatype DownloadJob = DownloadJob(state: Integration, name: string, fetches: Fetches)

  /** `_cron_download_documents` over the selected invoices, in order. */
  function DownloadPass(c: TokenCache, jobs: seq<DownloadJob>): (r: (TokenCache, seq<Integration>))
    ensures |r.1| == |jobs|
    decreases |jobs|
  {
    if jobs == [] then (c, [])
    else
      var before := DownloadPass(c, jobs[..|jobs| - 1]);
      var last := jobs[|jobs| - 1];
      var after := DownloadStep(before.0, last.state, last.fetches);
      (after.0, before.1 + [after.1])
  }

  /**
   * A download request for the file of type `t` of the document numbered `number`,
   * as a client with endpoint `baseUrl` and company RUC `ruc` posts it.
   */
  predicate Asks(r: DownloadRequest, baseUrl: string, ruc: Option<string>, number: Option<string>, t: FileType)
  {
    && r.url == baseUrl + "/DescargaArchivo" && r.ruc == ruc
    && r.documento == DocumentId(ruc, number) && r.tipoArchivo == FileTypeName(t)
  }

  /**
   * `requests` are the downloads of `types`, one each and in order, as that client
   * posts them for the document numbered `number` (`None` where nothing was posted).
   */
  predicate AsksEach(requests: seq<Option<DownloadRequest>>, baseUrl: string, ruc: Option<string>,
                     number: Option<string>, types: seq<FileType>)
  {
    && |requests| == |types|
    && forall k :: 0 <= k < |requests| && requests[k].Some? ==> Asks(requests[k].value, baseUrl, ruc, number, types[k])
  }

  lemma AsksEachJoin(a: seq<Option<DownloadRequest>>, b: seq<Option<DownloadRequest>>, baseUrl: string,
                     ruc: Option<string>, number: Option<string>, ta: seq<FileType>, tb: seq<FileType>)
    requires AsksEach(a, baseUrl, ruc, number, ta) && AsksEach(b, baseUrl, ruc, number, tb)
    ensures AsksEach(a + b, baseUrl, ruc, number, ta + tb)
  {
    assert forall k :: |a| <= k < |a + b| ==> (a + b)[k] == b[k - |a|] && (ta + tb)[k] == tb[k - |a|];
  }

  /** The file of type `t` stored between states `s` and `r`: one when it was absent before and is present after. */
  function NewFile(name: string, s: Integration, r: Integration, t: FileType): seq<Attachment>
  {
    if !HasFile(s, t) && HasFile(r, t) then [AttachmentFor(name, t)] else []
  }

  /** The files stored between states `s` and `r`, in the order XML, PDF, CDR. */
  function NewFiles(name: string, s: Integration, r: Integration): seq<Attachment>
  {
    NewFile(name, s, r, XML) + NewFile(name, s, r, PDF) + NewFile(name, s, r, CDR)
  }

  /** `r` is `s`, or `s` with the missing file of type `t` now present. */
  predicate GainsAtMost(s: Integration, r: Integration, t: FileType)
  {
    r == s || (!HasFile(s, t) && r == WithFile(s, t))
  }

  /**
   * Three downloads, XML then PDF then CDR, each gaining at most its own file: the files
   * gained and the requests made are, in that order, those of the types missing at the start.
   */
  lemma DownloadsInOrder(name: string, s0: Integration, s1: Integration, s2: Integration, s3: Integration,
                         rx: seq<Option<DownloadRequest>>, rp: seq<Option<DownloadRequest>>, rc: seq<Option<DownloadRequest>>,
                         baseUrl: string, ruc: Option<string>, number: Option<string>)
    requires GainsAtMost(s0, s1, XML) && GainsAtMost(s1, s2, PDF) && GainsAtMost(s2, s3, CDR)
    requires AsksEach(rx, baseUrl, ruc, number, if HasFile(s0, XML) then [] else [XML])
    requires AsksEach(rp, baseUrl, ruc, number, if HasFile(s1, PDF) then [] else [PDF])
    requires AsksEach(rc, baseUrl, ruc, number, if HasFile(s2, CDR) then [] else [CDR])
    ensures NewFiles(name, s0, s3) == NewFile(name, s0, s1, XML) + NewFile(name, s1, s2, PDF) + NewFile(name, s2, s3, CDR)
    ensures AsksEach(rx + rp + rc, baseUrl, ruc, number, MissingTypes(s0))
  {
    var tx: seq<FileType> := if HasFile(s0, XML) then [] else [XML];
    var tp: seq<FileType> := if HasFile(s1, PDF) then [] else [PDF];
    var tc: seq<FileType> := if HasFile(s2, CDR) then [] else [CDR];
    AsksEachJoin(rx, rp, baseUrl, ruc, number, tx, tp);
    AsksEachJoin(rx + rp, rc, baseUrl, ruc, number, tx + tp, tc);
    assert MissingTypes(s0) == tx + tp + tc;
  }

  /** `r` differs from `s` at most by files that became present. */
  predicate FilesOnlyAdded(s: Integration, r: Integration)
  {
    && (s.xmlFile ==> r.xmlFile) && (s.pdfFile ==> r.pdfFile) && (s.cdrFile ==> r.cdrFile)
    && r.(xmlFile := s.xmlFile, pdfFile := s.pdfFile, cdrFile := s.cdrFile) == s
  }

  /**
   * Downloading one invoice's files never clears a flag and changes nothing but the
   * flags.
   */
  lemma DownloadStepAddsFiles(c: TokenCache, s: Integration, fs: Fetches)
    ensures FilesOnlyAdded(s, DownloadStep(c, s, fs).1)
  {
  }

  /** Over a whole download pass, every invoice only gains files. */
  lemma {:induction false} DownloadPassAddsFiles(c: TokenCache, jobs: seq<DownloadJob>)
    ensures forall k :: 0 <= k < |jobs| ==> FilesOnlyAdded(jobs[k].state, DownloadPass(c, jobs).1[k])
    decreases |jobs|
  {
    if jobs != [] {
      var init := jobs[..|jobs| - 1];
      DownloadPassAddsFiles(c, init);
      var last := jobs[|jobs| - 1];
      DownloadStepAddsFiles(DownloadPass(c, init).0, last.state, last.fetches);
    }
  }

  /**
   * When every download an invoice needs delivers, with a usable token each time, the
   * invoice ends with all three files and leaves the download selection.
   */
  lemma DownloadCompletes(k: MoveKind, c: TokenCache, s: Integration, fs: Fetches)
    requires Truthy(c.token) && c.expiry.Some?
    requires fs.xml.clock < c.expiry.value && fs.pdf.clock < c.expiry.value && fs.cdr.clock < c.expiry.value
    requires fs.xml.reply.Replied? && Delivered(fs.xml.reply.body)
    requires fs.pdf.reply.Replied? && Delivered(fs.pdf.reply.body)
    requires fs.cdr.reply.Replied? && Delivered(fs.cdr.reply.body)
    ensures var r := DownloadStep(c, s, fs).1;
      r.xmlFile && r.pdfFile && r.cdrFile && !PendingDownload(k, r)
  {
  }

  lemma DownloadPassStep(c: TokenCache, jobs: seq<DownloadJob>, i: nat, cache: TokenCache, done: seq<Integration>)
    requires i < |jobs|
    requires DownloadPass(c, jobs[..i]) == (cache, done)
    ensures var after := DownloadStep(cache, jobs[i].state, jobs[i].fetches);
      DownloadPass(c, jobs[..i + 1]) == (after.0, done + [after.1])
  {
    assert jobs[..i + 1][..i] == jobs[..i];
  }

  /**
   * Every invoice of a download pass is processed: the state each ends in is its own
   * `DownloadStep` from the cache the previous one left, whatever the others did.
   */
  lemma {:induction false} DownloadPassProcessesAll(c: TokenCache, jobs: seq<DownloadJob>, k: nat)
    requires k < |jobs|
    ensures var before := DownloadPass(c, jobs[..k]);
      DownloadPass(c, jobs).1[k] == DownloadStep(before.0, jobs[k].state, jobs[k].fetches).1
    decreases |jobs|
  {
    if k < |jobs| - 1 {
      var init := jobs[..|jobs| - 1];
      assert init[..k] == jobs[..k];
      DownloadPassProcessesAll(c, init, k);
    } else {
      assert jobs[..|jobs| - 1] == jobs[..k];
    }
  }

  /** A download is asked for exactly the files an invoice lacks. */
  lemma MissingTypesExact(s: Integration, t: FileType)
    ensures t in MissingTypes(s) <==> !HasFile(s, t)
    ensures |MissingTypes(s)| == 0 <==> s.xmlFile && s.pdfFile && s.cdrFile
  {
  }

  // ---------------------------------------------------------------- the manual button

  /**
   * `button_send_hka`: refused for any move that is neither a customer invoice nor a
   * credit note; otherwise it builds the payload (and may raise doing so). It sends nothing.
   */
  function ButtonSendHka(moveType: MoveType, d: InvoiceData, emissionTime: string): (r: Result<Payload>)
    ensures moveType != OutInvoice && moveType != OutRefund ==> r == Failure(ONLY_INVOICES)
    ensures r.Success? <==> (moveType == OutInvoice || moveType == OutRefund) && BuildFailure(d).None?
    ensures r.Success? ==> r.value.header.serie + "-" + r.value.header.correlativo == d.name
    ensures r.Failure? && (moveType == OutInvoice || moveType == OutRefund) ==>
      r.error == BuildErrorText(BuildFailure(d).value)
  {
    if moveType != OutInvoice && moveType != OutRefund then Failure(ONLY_INVOICES)
    else PreparePayload(d, emissionTime)
  }

  // ---------------------------------------------------------------- the invoice record

  class Invoice {
    const data: InvoiceData
    const moveType: MoveType
    const journalType: JournalType
    var state: MoveState
    var status: HkaStatus
    var cpeNumber: Option<string>
    var sentDate: Option<int>
    var errorMsg: Option<string>
    var retryCount: int
    var xmlFile: bool
    var pdfFile: bool
    var cdrFile: bool
    /** The files stored against this invoice, in the order they were stored. */
    ghost var attachments: seq<Attachment>

    /** A new draft invoice with the fields' defaults: no status, no retries, no files. */
    constructor (data: InvoiceData, moveType: MoveType, journalType: JournalType)
      ensures this.data == data && this.moveType == moveType && this.journalType == journalType
      ensures Kind() == MoveKind(moveType, journalType, Draft)
      ensures Hka() == Integration(Unset, None, None, None, 0, false, false, false)
      ensures attachments == []
    {
      this.data := data;
      this.moveType := moveType;
      this.journalType := journalType;
      state := Draft;
      status := Unset;
      cpeNumber := None;
      sentDate := None;
      errorMsg := None;
      retryCount := 0;
      xmlFile := false;
      pdfFile := false;
      cdrFile := false;
      attachments := [];
    }

    function Kind(): MoveKind
      reads this
    {
      MoveKind(moveType, journalType, state)
    }

    function Hka(): Integration
      reads this
    {
      Integration(status, cpeNumber, sentDate, errorMsg, retryCount, xmlFile, pdfFile, cdrFile)
    }

    /** `_handle_retry`. */
    method HandleRetry(sent: bool)
      modifies this
      ensures Hka() == RetryStep(old(Hka()), sent)
      ensures state == old(state) && attachments == old(attachments)
    {
      if !sent {
        retryCount := retryCount + 1;
        if retryCount < MAX_RETRIES {
          status := ToSend;
        }
      } else {
        retryCount := 0;
      }
    }

    /** `_attach_file`: stores a file named after this invoice. */
    method AttachFile(t: FileType)
      modifies this
      ensures attachments == old(attachments) + [AttachmentFor(data.name, t)]
      ensures Hka() == old(Hka()) && state == old(state)
    {
      attachments := attachments + [AttachmentFor(data.name, t)];
    }

    /**
     * The part of `_send_to_hka` after the reply has arrived: reject, or record the
     * acceptance and store the XML the reply carries.
     */
    method ApplySendResponse(resp: SendResponse, sentAt: int) returns (result: Result<bool>)
      modifies this
      ensures var e := ApplyReply(old(Hka()), resp, sentAt);
        && Hka() == e.state && result == e.result
        && attachments == old(attachments) + (if e.attached then [AttachmentFor(data.name, XML)] else [])
      ensures state == old(state)
    {
      if !resp.estatus {
        status := Rejected;
        errorMsg := resp.mensaje;
        return Success(false);
      }
      status := Sent;
      cpeNumber := resp.numeracion;
      sentDate := Some(sentAt);
      errorMsg := None;
      if resp.xml.Some? && resp.xml.value.text != "" {
        if resp.xml.value.defect.Some? {
          return Failure(resp.xml.value.defect.value);
        }
        AttachFile(XML);
        xmlFile := true;
      }
      result := Success(true);
    }

    /**
     * `_send_to_hka`: returns whether the document was accepted, or the text of what
     * it raised; the state, the client's token and the stored XML follow `SendStep`.
     * It also returns the request posted, if any: this invoice's payload, posted once
     * the payload built and the token step raised nothing.
     */
    method SendToHka(connector: HkaConnector, a: SendAttempt) returns (result: Result<bool>, request: Option<SendRequest>)
      modifies this, connector, connector.config
      ensures var e := SendStep(old(connector.Cache()), old(Hka()), data, a);
        && connector.Cache() == e.cache && Hka() == e.state && result == e.result
        && attachments == old(attachments) + (if e.attached then [AttachmentFor(data.name, XML)] else [])
      ensures request.Some? <==>
        BuildFailure(data).None? && EnsureStep(old(connector.Cache()), a.clock, a.auth).error.None?
      ensures request.Some? ==>
        request.value == SendRequest(connector.baseUrl + "/Enviar", PreparePayload(data, a.emissionTime).value,
                                     connector.ruc, connector.Cache().token)
      ensures old(connector.Synced()) ==> connector.Synced()
      ensures state == old(state)
    {
      var built := PreparePayload(data, a.emissionTime);
      if built.Failure? {
        return Failure(built.error), None;
      }
      var response;
      request, response := connector.SendDocument(built.value, a.clock, a.auth, a.reply);
      if response.Failure? {
        return Failure(response.error), request;
      }
      result := ApplySendResponse(response.value, a.sentAt);
    }

    /**
     * `_download_and_attach`: asks for one file and, when it is delivered, stores it
     * and sets its flag; any failure is swallowed.
     */
    method DownloadAndAttach(connector: HkaConnector, t: FileType, f: Fetch) returns (request: Option<DownloadRequest>)
      modifies this, connector, connector.config
      ensures var e := FetchStep(old(connector.Cache()), old(Hka()), t, f);
        && connector.Cache() == e.cache && Hka() == e.state
        && attachments == old(attachments) + (if e.attached then [AttachmentFor(data.name, t)] else [])
      ensures request.Some? <==> EnsureStep(old(connector.Cache()), f.clock, f.auth).error.None?
      ensures request.Some? ==>
        Asks(request.value, connector.baseUrl, connector.ruc, old(cpeNumber), t)
        && request.value.token == connector.Cache().token
      ensures old(connector.Synced()) ==> connector.Synced()
      ensures state == old(state)
    {
      var response;
      request, response := connector.DownloadFile(cpeNumber, FileTypeName(t), f.clock, f.auth, f.reply);
      if response.Success? && Delivered(response.value) {
        AttachFile(t);
        match t {
          case XML => xmlFile := true;
          case PDF => pdfFile := true;
          case CDR => cdrFile := true;
        }
      }
    }

    /** One iteration of `_cron_send_hka`: send, then the retry bookkeeping or the `except` branch. */
    method CronSend(connector: HkaConnector, a: SendAttempt)
      modifies this, connector, connector.config
      ensures (connector.Cache(), Hka()) == CronSendStep(old(connector.Cache()), SendJob(old(Hka()), data, a))
      ensures attachments == old(attachments)
        + (if SendStep(old(connector.Cache()), old(Hka()), data, a).attached then [AttachmentFor(data.name, XML)] else [])
      ensures old(connector.Synced()) ==> connector.Synced()
      ensures state == old(state)
    {
      ghost var e := SendStep(connector.Cache(), Hka(), data, a);
      var result, request := SendToHka(connector, a);
      assert attachments == old(attachments) + (if e.attached then [AttachmentFor(data.name, XML)] else []);
      match result {
        case Success(sent) =>
          HandleRetry(sent);
        case Failure(message) =>
          errorMsg := Some(message);
          retryCount := retryCount + 1;
      }
    }

    /**
     * One `if not invoice.hka_<type>_file:` block of `_cron_download_documents`: when the
     * file is missing, download it. Returns the one request posted (`None` when the token
     * step raised first), or nothing when the file was already present.
     */
    method DownloadIfMissing(connector: HkaConnector, t: FileType, f: Fetch) returns (requests: seq<Option<DownloadRequest>>)
      modifies this, connector, connector.config
      ensures var e := FetchIfMissing(old(connector.Cache()), old(Hka()), t, f);
        connector.Cache() == e.cache && Hka() == e.state
      ensures AsksEach(requests, connector.baseUrl, connector.ruc, old(cpeNumber), if HasFile(old(Hka()), t) then [] else [t])
      ensures GainsAtMost(old(Hka()), Hka(), t)
      ensures attachments == old(attachments) + NewFile(data.name, old(Hka()), Hka(), t)
      ensures old(connector.Synced()) ==> connector.Synced()
      ensures state == old(state)
    {
      var present := match t case XML => xmlFile case PDF => pdfFile case CDR => cdrFile;
      requests := [];
      if !present {
        var request := DownloadAndAttach(connector, t, f);
        requests := [request];
      }
    }

    /**
     * One iteration of `_cron_download_documents`: a download for each missing file, in
     * the order XML, PDF, CDR. Returns, one per download, the request posted; the files
     * stored are the ones newly present.
     */
    method DownloadMissing(connector: HkaConnector, fs: Fetches) returns (requests: seq<Option<DownloadRequest>>)
      modifies this, connector, connector.config
      ensures (connector.Cache(), Hka()) == DownloadStep(old(connector.Cache()), old(Hka()), fs)
      ensures AsksEach(requests, connector.baseUrl, connector.ruc, old(cpeNumber), MissingTypes(old(Hka())))
      ensures attachments == old(attachments) + NewFiles(data.name, old(Hka()), Hka())
      ensures old(connector.Synced()) ==> connector.Synced()
      ensures state == old(state)
    {
      ghost var s0 := Hka();
      ghost var x := FetchIfMissing(connector.Cache(), s0, XML, fs.xml);
      var rx := DownloadIfMissing(connector, XML, fs.xml);
      ghost var s1 := Hka();
      ghost var p := FetchIfMissing(x.cache, x.state, PDF, fs.pdf);
      var rp := DownloadIfMissing(connector, PDF, fs.pdf);
      ghost var s2 := Hka();
      ghost var r := FetchIfMissing(p.cache, p.state, CDR, fs.cdr);
      var rc := DownloadIfMissing(connector, CDR, fs.cdr);
      assert (connector.Cache(), Hka()) == (r.cache, r.state);
      requests := rx + rp + rc;
      DownloadsInOrder(data.name, s0, s1, s2, Hka(), rx, rp, rc, connector.baseUrl, connector.ruc, old(cpeNumber));
    }
  }

  // ---------------------------------------------------------------- the passes over all invoices

  predicate Distinct<T(==)>(s: seq<T>)
  {
    forall i, j :: 0 <= i < j < |s| ==> s[i] != s[j]
  }

  /** The invoices of `all` that `_domain_pending_send` selects, in order. */
  function SelectPendingSend(all: seq<Invoice>): (r: seq<Invoice>)
    reads all
    ensures forall i :: 0 <= i < |r| ==> r[i] in all && PendingSend(r[i].Kind(), r[i].Hka())
    ensures forall i :: 0 <= i < |all| && PendingSend(all[i].Kind(), all[i].Hka()) ==> all[i] in r
    ensures |r| <= |all|
    ensures Distinct(all) ==> Distinct(r)
    decreases |all|
  {
    if all == [] then []
    else
      var rest := SelectPendingSend(all[1..]);
      if PendingSend(all[0].Kind(), all[0].Hka()) then
        assert Distinct(all) ==> all[0] !in all[1..];
        [all[0]] + rest
      else rest
  }

  /** The invoices of `all` that `_domain_pending_download` selects, in order. */
  function SelectPendingDownload(all: seq<Invoice>): (r: seq<Invoice>)
    reads all
    ensures forall i :: 0 <= i < |r| ==> r[i] in all && PendingDownload(r[i].Kind(), r[i].Hka())
    ensures forall i :: 0 <= i < |all| && PendingDownload(all[i].Kind(), all[i].Hka()) ==> all[i] in r
    ensures |r| <= |all|
    ensures Distinct(all) ==> Distinct(r)
    decreases |all|
  {
    if all == [] then []
    else
      var rest := SelectPendingDownload(all[1..]);
      if PendingDownload(all[0].Kind(), all[0].Hka()) then
        assert Distinct(all) ==> all[0] !in all[1..];
        [all[0]] + rest
      else rest
  }

  /** The send jobs of the selected invoices, as they stand now. */
  function SendJobs(pending: seq<Invoice>, attempts: seq<SendAttempt>): (jobs: seq<SendJob>)
    requires |pending| <= |attempts|
    reads pending
    ensures |jobs| == |pending|
    ensures forall k :: 0 <= k < |pending| ==>
      jobs[k] == SendJob(pending[k].Hka(), pending[k].data, attempts[k])
  {
    seq(|pending|, k reads pending requires 0 <= k < |pending| =>
      SendJob(pending[k].Hka(), pending[k].data, attempts[k]))
  }

  /** The download jobs of the selected invoices, as they stand now. */
  function DownloadJobs(pending: seq<Invoice>, fetches: seq<Fetches>): (jobs: seq<DownloadJob>)
    requires |pending| <= |fetches|
    reads pending
    ensures |jobs| == |pending|
    ensures forall k :: 0 <= k < |pending| ==>
      jobs[k] == DownloadJob(pending[k].Hka(), pending[k].data.name, fetches[k])
  {
    seq(|pending|, k reads pending requires 0 <= k < |pending| =>
      DownloadJob(pending[k].Hka(), pending[k].data.name, fetches[k]))
  }

  /**
   * `action_post`: every move is posted; customer invoices of sale journals are
   * queued for sending, the others keep their status.
   */
  method ActionPost(moves: seq<Invoice>)
    requires Distinct(moves)
    modifies set x | x in moves
    ensures forall x :: x in moves ==>
      x.Kind() == PostKind(old(x.Kind())) && x.Hka() == PostStep(old(x.Kind()), old(x.Hka()))
      && x.attachments == old(x.attachments)
  {
    var i := 0;
    while i < |moves|
      invariant 0 <= i <= |moves|
      invariant forall k :: 0 <= k < i ==>
        moves[k].Kind() == PostKind(old(moves[k].Kind()))
        && moves[k].Hka() == PostStep(old(moves[k].Kind()), old(moves[k].Hka()))
      invariant forall k :: i <= k < |moves| ==>
        moves[k].Kind() == old(moves[k].Kind()) && moves[k].Hka() == old(moves[k].Hka())
      invariant forall x :: x in moves ==> x.attachments == old(x.attachments)
    {
      var m := moves[i];
      m.state := Posted;
      if m.moveType == OutInvoice && m.journalType == Sale {
        m.status := ToSend;
      }
      i := i + 1;
    }
  }

  /**
   * The `i`-th iteration of the send loop: `invoice` is the `i`-th job, and the pass
   * so far has produced `done`; afterwards the pass has one more entry, this invoice's.
   */
  method SendInPass(invoice: Invoice, connector: HkaConnector, a: SendAttempt,
                    ghost c0: TokenCache, ghost jobs: seq<SendJob>, ghost i: nat, ghost done: seq<Integration>)
    requires i < |jobs| && jobs[i] == SendJob(invoice.Hka(), invoice.data, a)
    requires SendPass(c0, jobs[..i]) == (connector.Cache(), done)
    modifies invoice, connector, connector.config
    ensures SendPass(c0, jobs[..i + 1]) == (connector.Cache(), done + [invoice.Hka()])
    ensures invoice.attachments == old(invoice.attachments)
      + (if SendStep(old(connector.Cache()), old(invoice.Hka()), invoice.data, a).attached
         then [AttachmentFor(invoice.data.name, XML)] else [])
    ensures invoice.state == old(invoice.state)
    ensures old(connector.Synced()) ==> connector.Synced()
  {
    SendPassStep(c0, jobs, i, connector.Cache(), done);
    invoice.CronSend(connector, a);
  }

  /**
   * The loop of `_cron_send_hka` over the selected invoices: each is processed in turn,
   * and their new states and the client's token are those of `SendPass`.
   */
  method SendEach(pending: seq<Invoice>, connector: HkaConnector, attempts: seq<SendAttempt>)
    requires Distinct(pending)
    requires |pending| <= |attempts|
    modifies pending, connector, connector.config
    ensures var pass := SendPass(old(connector.Cache()), old(SendJobs(pending, attempts)));
      && connector.Cache() == pass.0
      && (forall k :: 0 <= k < |pending| ==> pending[k].Hka() == pass.1[k])
    ensures old(connector.Synced()) ==> connector.Synced()
  {
    // Each iteration is `SendInPass`; the loop needs only that contract, not the step's body.
    hide CronSendStep;
    ghost var jobs := SendJobs(pending, attempts);
    ghost var c0 := connector.Cache();
    ghost var synced := connector.Synced();
    ghost var done: seq<Integration> := [];
    var i := 0;
    while i < |pending|
      invariant 0 <= i <= |pending|
      invariant SendPass(c0, jobs[..i]) == (connector.Cache(), done)
      invariant synced ==> connector.Synced()
      invariant |done| == i
      invariant forall k :: 0 <= k < |pending| ==> pending[k].Hka() == (if k < i then done[k] else jobs[k].state)
    {
      var invoice := pending[i];
      SendInPass(invoice, connector, attempts[i], c0, jobs, i, done);
      done := done + [invoice.Hka()];
      i := i + 1;
    }
    assert jobs[..|pending|] == jobs;
  }

  /**
   * `_cron_send_hka`: selects the invoices pending send and processes each in turn;
   * their new states and the client's token are those of `SendPass`, every other
   * invoice is left as it was.
   */
  method CronSendHka(all: seq<Invoice>, connector: HkaConnector, attempts: seq<SendAttempt>)
    requires Distinct(all)
    requires |all| <= |attempts|
    modifies (set x | x in all), connector, connector.config
    ensures var pending := old(SelectPendingSend(all));
      var pass := SendPass(old(connector.Cache()), old(SendJobs(SelectPendingSend(all), attempts)));
      && connector.Cache() == pass.0
      && (forall k :: 0 <= k < |pending| ==> pending[k].Hka() == pass.1[k])
    ensures forall x :: x in all && x !in old(SelectPendingSend(all)) ==> x.Hka() == old(x.Hka())
    ensures old(connector.Synced()) ==> connector.Synced()
  {
    var pending := SelectPendingSend(all);
    SendEach(pending, connector, attempts);
  }

  /**
   * The `i`-th iteration of the download loop: `invoice` is the `i`-th job, and the
   * pass so far has produced `done`; afterwards the pass has one more entry, this invoice's.
   */
  method DownloadInPass(invoice: Invoice, connector: HkaConnector, fs: Fetches,
                        ghost c0: TokenCache, ghost jobs: seq<DownloadJob>, ghost i: nat, ghost done: seq<Integration>)
    requires i < |jobs| && jobs[i] == DownloadJob(invoice.Hka(), invoice.data.name, fs)
    requires DownloadPass(c0, jobs[..i]) == (connector.Cache(), done)
    modifies invoice, connector, connector.config
    ensures DownloadPass(c0, jobs[..i + 1]) == (connector.Cache(), done + [invoice.Hka()])
    ensures invoice.attachments == old(invoice.attachments) + NewFiles(invoice.data.name, old(invoice.Hka()), invoice.Hka())
    ensures invoice.state == old(invoice.state)
    ensures old(connector.Synced()) ==> connector.Synced()
  {
    DownloadPassStep(c0, jobs, i, connector.Cache(), done);
    var requests := invoice.DownloadMissing(connector, fs);
  }

  /**
   * The loop of `_cron_download_documents` over the selected invoices: each downloads
   * its missing files in turn; their new states and the client's token are those of
   * `DownloadPass`.
   */
  method DownloadEach(pending: seq<Invoice>, connector: HkaConnector, fetches: seq<Fetches>)
    requires Distinct(pending)
    requires |pending| <= |fetches|
    modifies pending, connector, connector.config
    ensures var pass := DownloadPass(old(connector.Cache()), old(DownloadJobs(pending, fetches)));
      && connector.Cache() == pass.0
      && (forall k :: 0 <= k < |pending| ==> pending[k].Hka() == pass.1[k])
    ensures old(connector.Synced()) ==> connector.Synced()
  {
    // Each iteration is `DownloadInPass`; the loop needs only that contract, not the step's body.
    hide DownloadStep;
    ghost var jobs := DownloadJobs(pending, fetches);
    ghost var c0 := connector.Cache();
    ghost var synced := connector.Synced();
    ghost var done: seq<Integration> := [];
    var i := 0;
    while i < |pending|
      invariant 0 <= i <= |pending|
      invariant DownloadPass(c0, jobs[..i]) == (connector.Cache(), done)
      invariant synced ==> connector.Synced()
      invariant |done| == i
      invariant forall k :: 0 <= k < |pending| ==> pending[k].Hka() == (if k < i then done[k] else jobs[k].state)
    {
      var invoice := pending[i];
      DownloadInPass(invoice, connector, fetches[i], c0, jobs, i, done);
      done := done + [invoice.Hka()];
      i := i + 1;
    }
    assert jobs[..|pending|] == jobs;
  }

  /**
   * `_cron_download_documents`: selects the invoices pending download and, for each,
   * downloads every missing file in the order XML, PDF, CDR. States and token are
   * those of `DownloadPass`, and every other invoice is left as it was.
   */
  method CronDownloadDocuments(all: seq<Invoice>, connector: HkaConnector, fetches: seq<Fetches>)
    requires Distinct(all)
    requires |all| <= |fetches|
    modifies (set x | x in all), connector, connector.config
    ensures var pending := old(SelectPendingDownload(all));
      var jobs := old(DownloadJobs(SelectPendingDownload(all), fetches));
      var pass := DownloadPass(old(connector.Cache()), jobs);
      && connector.Cache() == pass.0
      && (forall k :: 0 <= k < |pending| ==> pending[k].Hka() == pass.1[k])
    ensures forall x :: x in all && x !in old(SelectPendingDownload(all)) ==> x.Hka() == old(x.Hka())
    ensures old(connector.Synced()) ==> connector.Synced()
  {
    var pending := SelectPendingDownload(all);
    DownloadEach(pending, connector, fetches);
  }
}
