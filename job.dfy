/** The job an upload request queues for its account.

    The job fetches the request's files one after the other into the upload
    directory, each under its sanitised name, and stops at the first fetch
    that fails. When all of them are fetched it opens a browser session for
    the account whose `fn` uploads the fetched files on the location's
    photos page, and then answers with the number of files.

    A fetch is not modelled beyond its outcome: `fetchFailures` maps the
    position of each file whose download throws to the error's message.
 */
module Job {
  import opened JsText
  import opened Filenames
  import opened Http
  import opened Session

  /** A `downloadFromDrive(fileId, destPath)` call. */
  datatype Download = Download(fileId: Option<JsString>, dest: JsString)

  /** The upload `fn` performs: the page it opens and the files it hands to
      the file chooser. */
  datatype UploadCall = UploadCall(url: JsString, filePaths: seq<JsString>)

  const PhotosPrefix: JsString := Js("https://business.google.com/dashboard/l/")
  const PhotosSuffix: JsString := Js("/photos")

  /** The photos page of a location. */
  function PhotosUrl(locationId: JsString): (r: JsString)
    ensures |r| == |PhotosPrefix| + |locationId| + |PhotosSuffix|
    ensures r[..|PhotosPrefix|] == PhotosPrefix
    ensures r[|PhotosPrefix|..|PhotosPrefix| + |locationId|] == locationId
    ensures r[|PhotosPrefix| + |locationId|..] == PhotosSuffix
  {
    PhotosPrefix + locationId + PhotosSuffix
  }

  /** The location whose photos page `url` is, if it is one. */
  function LocationOfPhotosUrl(url: JsString): (r: Option<JsString>)
    ensures r.Some? ==> PhotosUrl(r.value) == url
  {
    if |url| >= |PhotosPrefix| + |PhotosSuffix|
       && url[..|PhotosPrefix|] == PhotosPrefix
       && url[|url| - |PhotosSuffix|..] == PhotosSuffix
    then
      var loc := url[|PhotosPrefix|..|url| - |PhotosSuffix|];
      assert url == PhotosPrefix + loc + PhotosSuffix;
      Some(loc)
    else None
  }

  /** The location can be read back from its photos page, so two locations
      never share a page. */
  lemma PhotosUrlRoundTrip(locationId: JsString)
    ensures LocationOfPhotosUrl(PhotosUrl(locationId)) == Some(locationId)
  {
    var url := PhotosUrl(locationId);
    assert url[..|PhotosPrefix|] == PhotosPrefix;
    assert url[|url| - |PhotosSuffix|..] == PhotosSuffix;
    assert url[|PhotosPrefix|..|url| - |PhotosSuffix|] == locationId;
  }

  /** The downloads of `files`, in order. */
  function Downloads(files: seq<FileRef>): (r: seq<Download>)
    ensures |r| == |files|
    ensures forall i :: 0 <= i < |files| ==> r[i] == Download(files[i].id, Dest(files[i]))
  {
    seq(|files|, i requires 0 <= i < |files| => Download(files[i].id, Dest(files[i])))
  }

  /** The position of the first of `n - from` files, from position `from` on,
      whose fetch fails; `n` when none fails. */
  function FirstFailureFrom(from: nat, n: nat, fetchFailures: map<nat, JsString>): (r: nat)
    requires from <= n
    ensures from <= r <= n
    ensures forall j :: from <= j < r ==> j !in fetchFailures
    ensures r < n ==> r in fetchFailures
    decreases n - from
  {
    if from == n then n
    else if from in fetchFailures then from
    else FirstFailureFrom(from + 1, n, fetchFailures)
  }

  /** The position of the first file of `n` whose fetch fails; `n` when none does. */
  function FirstFailure(n: nat, fetchFailures: map<nat, JsString>): nat {
    FirstFailureFrom(0, n, fetchFailures)
  }

  /** The first failing position is the only one with nothing failing before it. */
  lemma {:induction false} FirstFailureUnique(from: nat, n: nat, fetchFailures: map<nat, JsString>, k: nat)
    requires from <= k <= n
    requires forall j :: from <= j < k ==> j !in fetchFailures
    requires k < n ==> k in fetchFailures
    ensures FirstFailureFrom(from, n, fetchFailures) == k
    decreases n - from
  {
    if from < k {
      FirstFailureUnique(from + 1, n, fetchFailures, k);
    }
  }

  /** How the job for `accountKey` ends: with the first fetch error, or
      else as the browser session does, answering the number of files. */
  function JobOutcome(accounts: map<JsString, Account>, accountKey: JsString, files: seq<FileRef>,
                      fetchFailures: map<nat, JsString>, remote: Remote): Outcome<nat>
  {
    var k := FirstFailure(|files|, fetchFailures);
    if k < |files| then Failed(fetchFailures[k])
    else match SessionOutcome(accounts, accountKey, remote, ())
      case Done(_) => Done(|files|)
      case Failed(message) => Failed(message)
  }

  /** The loop of the job: fetch each file in turn to its destination and
      collect the destinations in `paths`, stopping at the first fetch that
      throws. */
  method FetchAll(files: seq<FileRef>, fetchFailures: map<nat, JsString>)
    returns (error: Option<JsString>, downloads: seq<Download>, paths: seq<JsString>)
    ensures var k := FirstFailure(|files|, fetchFailures);
            && (k < |files| ==>
                  && error == Some(fetchFailures[k])
                  && downloads == Downloads(files[..k + 1])
                  && paths == DestPaths(files[..k]))
            && (k == |files| ==>
                  && error == None
                  && downloads == Downloads(files)
                  && paths == DestPaths(files))
  {
    paths := [];
    downloads := [];
    var i := 0;
    while i < |files|
      invariant 0 <= i <= |files|
      invariant forall j :: 0 <= j < i ==> j !in fetchFailures
      invariant paths == DestPaths(files[..i])
      invariant downloads == Downloads(files[..i])
    {
      var dest := Dest(files[i]);
      downloads := downloads + [Download(files[i].id, dest)];
      assert downloads == Downloads(files[..i + 1]);
      if i in fetchFailures {
        FirstFailureUnique(0, |files|, fetchFailures, i);
        return Some(fetchFailures[i]), downloads, paths;
      }
      paths := paths + [dest];
      assert paths == DestPaths(files[..i + 1]);
      i := i + 1;
    }
    assert files[..i] == files;
    FirstFailureUnique(0, |files|, fetchFailures, |files|);
    error := None;
  }

  /** The job's function: fetch every file, then upload them all through a
      browser session. Besides the result, it gives the downloads started,
      the `paths` collected, the session's steps and the upload `fn` made. */
  method UploadJob(accounts: map<JsString, Account>, accountKey: JsString, locationId: JsString,
                   files: seq<FileRef>, fetchFailures: map<nat, JsString>, remote: Remote)
    returns (result: Outcome<nat>, downloads: seq<Download>, paths: seq<JsString>,
             session: seq<Step>, upload: Option<UploadCall>)
    ensures result == JobOutcome(accounts, accountKey, files, fetchFailures, remote)
    ensures var k := FirstFailure(|files|, fetchFailures);
            && (k < |files| ==>
                  && downloads == Downloads(files[..k + 1])
                  && paths == DestPaths(files[..k])
                  && session == [] && upload == None)
            && (k == |files| ==>
                  && downloads == Downloads(files)
                  && paths == DestPaths(files)
                  && session == SessionTrace(accounts, accountKey, remote))
    ensures upload == if RunFn in session then Some(UploadCall(PhotosUrl(locationId), paths)) else None
  {
    var error;
    error, downloads, paths := FetchAll(files, fetchFailures);
    if error.Some? {
      return Failed(error.value), downloads, paths, [], None;
    }
    var outcome;
    outcome, session := WithBrowser(accounts, accountKey, remote, ());
    upload := if RunFn in session then Some(UploadCall(PhotosUrl(locationId), paths)) else None;
    result := match outcome
      case Done(_) => Done(|paths|)
      case Failed(message) => Failed(message);
  }

  /** A job succeeds exactly when every fetch succeeds and so does the
      session; it then reports every file as uploaded. */
  lemma JobSucceedsIff(accounts: map<JsString, Account>, accountKey: JsString, files: seq<FileRef>,
                       fetchFailures: map<nat, JsString>, remote: Remote)
    ensures JobOutcome(accounts, accountKey, files, fetchFailures, remote).Done? <==>
              (forall j :: 0 <= j < |files| ==> j !in fetchFailures)
              && SessionOutcome(accounts, accountKey, remote, ()).Done?
    ensures JobOutcome(accounts, accountKey, files, fetchFailures, remote).Done? ==>
              JobOutcome(accounts, accountKey, files, fetchFailures, remote) == Done(|files|)
  {
    var k := FirstFailure(|files|, fetchFailures);
    if forall j :: 0 <= j < |files| ==> j !in fetchFailures {
      FirstFailureUnique(0, |files|, fetchFailures, |files|);
    }
  }

  /** A job fails with the message of the first failing fetch, or, if no
      fetch fails, with the session's error. */
  lemma JobErrorSource(accounts: map<JsString, Account>, accountKey: JsString, files: seq<FileRef>,
                       fetchFailures: map<nat, JsString>, remote: Remote)
    requires JobOutcome(accounts, accountKey, files, fetchFailures, remote).Failed?
    ensures var message := JobOutcome(accounts, accountKey, files, fetchFailures, remote).message;
            || (exists k :: 0 <= k < |files| && k in fetchFailures && fetchFailures[k] == message
                  && forall j :: 0 <= j < k ==> j !in fetchFailures)
            || ((forall j :: 0 <= j < |files| ==> j !in fetchFailures)
                  && SessionOutcome(accounts, accountKey, remote, ()) == Failed(message))
  {
    var k := FirstFailure(|files|, fetchFailures);
    if k < |files| {
      assert 0 <= k < |files| && k in fetchFailures;
    }
  }
}
