# Trial-and-Error-Reading activity: file-chooser bridge and download policy

The Android app is one activity, `MainActivity`, that hosts a WebView showing a single remote page. Most of it is
configuration. This project models the two parts that make decisions, and proves properties about them:

- **The file-picker bridge.** The field `filePathCallback` holds at most one `ValueCallback<Uri[]>`. The browser hands
  one to `onShowFileChooser`, and the activity-result callback registered in `onCreate` resolves it.
  - `FileChooser.MainActivity` is the imperative form: the field plus ghost logs of the callbacks resolved, the callbacks
    handed back to the browser, and the toasts shown.
  - Its methods are proved to follow a pure step machine (`ShowStep`, `ResultStep`, and `Run` over any sequence of
    handler calls).
  - Lemmas over every such sequence show that no callback is lost or invented. If the browser never supplies the same
    callback twice, none is resolved twice.
- **The connectivity probe and the download listener.** `networkIsConnected`, the cache mode chosen from it, and the
  decision in `onDownloadStart` are functions. The decision has four outcomes: no network, special URL, enqueued, or
  failed.

Platform inputs become parameters:
- the active `NetworkInfo` (absent when there is no active network);
- whether `fileChooserLauncher.launch` throws;
- the activity result;
- `URLUtil.guessFileName`, as an uninterpreted function argument;
- the message of an exception thrown while the download request is built or enqueued.

Modules: `Platform` (Option, Toast), `Connectivity`, `Download`, `FileChooser`.

When `fileChooserLauncher.launch` throws (MainActivity.java:100-104), the activity does three things. It clears the
slot, shows "Cannot open file chooser" and returns `false`. It never invokes the new callback, which goes back to the
WebView. The model records such callbacks as `declined`.

## Model

| member | source | states |
|---|---|---|
| Connectivity.NetworkIsConnected | apk/src-info/MainActivity.java:44-48 | connected exactly when an active network info exists and reports connected-or-connecting; no active network means not connected |
| Connectivity.CacheMode | apk/src-info/MainActivity.java:85 | the cache mode is LOAD_NO_CACHE (2) iff connected and LOAD_CACHE_ELSE_NETWORK (1) iff not connected |
| Download.StartsWith | apk/src-info/MainActivity.java:121 | the character-by-character prefix test agrees with the reference definition: the prefix fits and equals the URL's leading slice |
| Download.OnDownloadStart | apk/src-info/MainActivity.java:114-145 | disconnected gives NoNetwork whatever the URL; connected with a blob: or data: prefix gives SpecialUrl; an entry is enqueued iff connected, not special and nothing throws, and then its title and destination file name both equal guessFileName(url, contentDisposition, mimeType); a thrown exception gives Failed with its message and nothing enqueued, and shows "Download failed: " + message (long); an enqueued entry is announced as "Downloading " + the guessed name (short) |
| Download.IsSpecialUrl | apk/src-info/MainActivity.java:121 | a URL is special exactly when its first five characters are blob: or data: |
| Download.Notice | apk/src-info/MainActivity.java:116-144 | the toast is long exactly for the special-URL and failure outcomes; an enqueued outcome shows "Downloading " + its title and a failure shows "Download failed: " + its message |
| Download.NoticeDeterminesOutcomeKind | apk/src-info/MainActivity.java:116-144 | two outcomes that show the same toast are of the same kind, with the same file name or failure message; in particular a failure is never announced with the "Downloading" notice |
| Download.SchemeCheckIsCaseSensitive | apk/src-info/MainActivity.java:121 | a URL beginning with BLOB: or DATA: in upper case is not a special URL |
| Download.PdfDownloadIsEnqueued | apk/src-info/MainActivity.java:126-140 | a connected request for https://example.com/a.pdf whose guessed name is a.pdf is enqueued under that title and destination and announced as "Downloading a.pdf" |
| FileChooser.ChosenFiles | apk/src-info/MainActivity.java:67-70 | the value is non-null iff the result code is RESULT_OK and the result carries an Intent, and it is then a one-element array holding that Intent's data Uri |
| FileChooser.ShowStep | apk/src-info/MainActivity.java:90-105 | a callback already pending is resolved with null, once; the new callback is pending afterwards iff the launch succeeds; on failure it is appended to the declined log without being invoked and exactly the toast "Cannot open file chooser" (long) is added; on success the declined log and the toasts are unchanged |
| FileChooser.ResultStep | apk/src-info/MainActivity.java:65-73 | with an empty slot nothing changes; otherwise the pending callback is resolved exactly once with ChosenFiles(result); the slot is empty afterwards in both cases |
| FileChooser.StepAccounting | apk/src-info/MainActivity.java:65-105 | one handler call neither loses nor invents a callback: the multiset of resolved, declined and pending callbacks grows by exactly the callback supplied, if any |
| FileChooser.RunAccounting | apk/src-info/MainActivity.java:65-105 | over any sequence of handler calls, the resolved, declined and pending callbacks together are exactly the callbacks supplied, as multisets |
| FileChooser.ResolvedAtMostOnce | apk/src-info/MainActivity.java:65-105 | if the browser never supplies the same callback twice, no callback is resolved twice, none is both resolved and declined, and the pending callback has not been resolved |
| FileChooser.ResolvesOnlyOfferedCallbacks | apk/src-info/MainActivity.java:65-105 | every callback the activity resolves was supplied by the browser |
| FileChooser.ActivityResolvesAtMostOnce | apk/src-info/MainActivity.java:41 | for a MainActivity in any reachable state whose supplied callbacks are distinct, its log of resolutions names no callback twice |
| FileChooser.MainActivity.constructor | apk/src-info/MainActivity.java:41 | the slot starts empty and nothing has been resolved, declined or shown |
| FileChooser.MainActivity.ReceiveValue | apk/src-info/MainActivity.java:71 | invoking a callback appends exactly that resolution to the log and changes nothing else |
| FileChooser.MainActivity.OnShowFileChooser | apk/src-info/MainActivity.java:90-105 | the old pending callback, if any, is resolved with null before the new one is stored; the method returns true and keeps the new callback pending iff the launch succeeds; otherwise the slot is cleared, the new callback is not invoked and "Cannot open file chooser" is shown; the state stays equal to Run of the handler calls so far |
| FileChooser.MainActivity.OnActivityResult | apk/src-info/MainActivity.java:65-73 | with an empty slot nothing is invoked and the state is unchanged; otherwise the pending callback is resolved once with ChosenFiles(result) and the slot is emptied |

## Left out

- WebView configuration other than the cache mode (lines 75-84, 86, 108-110, 148): settings with no behaviour to state.
- Edge-to-edge layout and window insets (lines 53-59): UI layout.
- The storage-permission request and `onRequestPermissionsResult` (lines 61-63, 176-179): platform calls; the grant result is never used.
- `DownloadManager.Request` details (mime type, User-Agent header, description, notification visibility, metered and roaming flags, lines 128-139): foreign API. The model keeps the URI, the title and the destination file name.
- `URLUtil.guessFileName` and `Uri.parse`: library code not part of this model. The file-name guess is a function argument. Whether building or enqueueing the request throws is an input.
- `JavaScriptInterface.startDownload` (lines 151-174): it relies on base64 decoding from a library and on file I/O. Note that `fos.close()` is inside the `try` with no `finally`, so the stream is not closed when the write throws.
- An exception from `fileChooserParams.createIntent()` (line 96): this call sits outside the `try`. If it throws, the exception escapes `onShowFileChooser` after the old callback was resolved with null, and the new callback stays stored in the field (line 94). The model has no such path: `ShowStep` and `MainActivity.OnShowFileChooser` assume that building the intent returns normally.
- `Log.d` and `Log.e` lines: diagnostic output with no effect on behaviour. Toasts are modelled by their text and duration only.
- Callbacks and Uris are modelled by identity and string form. A Java exception message that is null appears in the failure toast as the text "null". The model takes the message as the string it renders to.
