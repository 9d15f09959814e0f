/** The download listener: which browser download requests reach the
    platform's download queue, and the notice shown for each outcome. */
module Download {
  import opened Platform
  import opened Connectivity

  /** The arguments of DownloadListener.onDownloadStart. */
  datatype DownloadRequest = DownloadRequest(
    url: string, userAgent: string, contentDisposition: string, mimeType: string, contentLength: int)

  /** The parts of the DownloadManager.Request this model keeps: the source
      URI, the notification title and the file name in the public downloads
      directory. */
  datatype QueueEntry = QueueEntry(uri: string, title: string, fileName: string)

  datatype DownloadOutcome =
    | NoNetwork                 // rejected: not connected
    | SpecialUrl                // rejected: blob: or data: URL
    | Enqueued(entry: QueueEntry)
    | Failed(message: string)   // an exception was caught; its message

  /** String.startsWith, compared character by character. */
  function StartsWith(s: string, prefix: string): (r: bool)
    ensures r <==> |prefix| <= |s| && s[..|prefix|] == prefix
  {
    if prefix == [] then true
    else if s == [] then false
    else s[0] == prefix[0] && StartsWith(s[1..], prefix[1..])
  }

  /** URLs the download queue cannot fetch by reference; the page hands their
      content over through the script bridge instead. */
  predicate IsSpecialUrl(url: string)
    ensures IsSpecialUrl(url) <==> 5 <= |url| && (url[..5] == "blob:" || url[..5] == "data:")
  {
    StartsWith(url, "blob:") || StartsWith(url, "data:")
  }

  /** onDownloadStart. The connectivity check comes first, then the scheme
      check; only then is a file name guessed and an entry enqueued.
      guessFileName stands for URLUtil.guessFileName, and fault is the message
      of an exception thrown while the request is built or enqueued, if any. */
  function OnDownloadStart(request: DownloadRequest, activeNetworkInfo: Option<NetworkInfo>,
                           guessFileName: (string, string, string) -> string,
                           fault: Option<string>): (outcome: DownloadOutcome)
    ensures !NetworkIsConnected(activeNetworkInfo) ==> outcome == NoNetwork
    ensures NetworkIsConnected(activeNetworkInfo) && IsSpecialUrl(request.url) ==> outcome == SpecialUrl
    ensures outcome.Enqueued? <==>
      NetworkIsConnected(activeNetworkInfo) && !IsSpecialUrl(request.url) && fault.None?
    ensures outcome.Enqueued? ==>
      var name := guessFileName(request.url, request.contentDisposition, request.mimeType);
      outcome.entry == QueueEntry(request.url, name, name)
    ensures outcome.Failed? <==>
      NetworkIsConnected(activeNetworkInfo) && !IsSpecialUrl(request.url) && fault.Some?
    ensures outcome.Failed? ==> outcome.message == fault.value
    ensures outcome.Enqueued? ==>
      Notice(outcome) == Toast("Downloading " + guessFileName(request.url, request.contentDisposition, request.mimeType), Short)
    ensures outcome.Failed? ==> Notice(outcome) == Toast("Download failed: " + fault.value, Long)
  {
    if !NetworkIsConnected(activeNetworkInfo) then NoNetwork
    else if IsSpecialUrl(request.url) then SpecialUrl
    else match fault
      case Some(message) => Failed(message)
      case None =>
        var fileName := guessFileName(request.url, request.contentDisposition, request.mimeType);
        Enqueued(QueueEntry(request.url, fileName, fileName))
  }

  /** The toast shown at the end of onDownloadStart. */
  function Notice(outcome: DownloadOutcome): (toast: Toast)
    ensures toast.duration == Long <==> outcome.SpecialUrl? || outcome.Failed?
    ensures outcome.Enqueued? ==> toast.text == "Downloading " + outcome.entry.title
    ensures outcome.Failed? ==> toast.text == "Download failed: " + outcome.message
  {
    match outcome
    case NoNetwork => Toast("No network connection", Short)
    // The literal is split in two only so that the verifier can see its first
    // character, which NoticeInitial relies on; the text is unchanged.
    case SpecialUrl => Toast("Special URLs are handled" + " via JavaScript interface", Long)
    case Enqueued(entry) => Toast("Downloading " + entry.title, Short)
    case Failed(message) => Toast("Download failed: " + message, Long)
  }

  /** The first character of each notice: N, S, or D for both notices that
      start with the word Download. */
  function NoticeInitial(outcome: DownloadOutcome): (c: char)
    ensures c == Notice(outcome).text[0]
    ensures c == 'D' <==> outcome.Enqueued? || outcome.Failed?
  {
    match outcome
    case NoNetwork => assert Notice(outcome).text[0] == "No network connection"[0]; 'N'
    case SpecialUrl => assert Notice(outcome).text[0] == "Special URLs are handled"[0]; 'S'
    case Enqueued(entry) => assert ("Downloading " + entry.title)[0] == "Downloading "[0]; 'D'
    case Failed(message) => assert ("Download failed: " + message)[0] == "Download failed: "[0]; 'D'
  }

  /** The notice tells the user which way the request went: two outcomes of
      different kinds never show the same notice, so a failure is never
      announced as a started download. */
  lemma NoticeDeterminesOutcomeKind(o1: DownloadOutcome, o2: DownloadOutcome)
    requires Notice(o1) == Notice(o2)
    ensures o1.NoNetwork? <==> o2.NoNetwork?
    ensures o1.SpecialUrl? <==> o2.SpecialUrl?
    ensures o1.Enqueued? <==> o2.Enqueued?
    ensures o1.Failed? <==> o2.Failed?
    ensures o1.Enqueued? ==> o1.entry.title == o2.entry.title
    ensures o1.Failed? ==> o1.message == o2.message
  {
    var t1, t2 := Notice(o1).text, Notice(o2).text;
    assert t1[0] == t2[0];
    assert NoticeInitial(o1) == t1[0] && NoticeInitial(o2) == t2[0];
    if o1.Enqueued? && o2.Enqueued? {
      assert o1.entry.title == t1[12..] == t2[12..] == o2.entry.title;
    }
    if o1.Failed? && o2.Failed? {
      assert o1.message == t1[17..] == t2[17..] == o2.message;
    }
  }

  /** The scheme check is case-sensitive: an upper-case BLOB: or DATA: URL is
      not special and, when online, reaches the enqueue attempt. */
  lemma SchemeCheckIsCaseSensitive(url: string)
    requires StartsWith(url, "BLOB:") || StartsWith(url, "DATA:")
    ensures !IsSpecialUrl(url)
  {
  }

  /** A request with an https URL and no content disposition, while online,
      is enqueued under the guessed name and announced with it. */
  lemma PdfDownloadIsEnqueued(guessFileName: (string, string, string) -> string)
    requires guessFileName("https://example.com/a.pdf", "", "application/pdf") == "a.pdf"
    ensures var request := DownloadRequest("https://example.com/a.pdf", "", "", "application/pdf", 0);
      var outcome := OnDownloadStart(request, Some(NetworkInfo(true)), guessFileName, None);
      outcome == Enqueued(QueueEntry("https://example.com/a.pdf", "a.pdf", "a.pdf"))
      && Notice(outcome) == Toast("Downloading a.pdf", Short)
  {
  }
}
