/**
 * The decision logic of `AxiosFileDownloader.download`: given the download's
 * HTTP status, the source URL and the entries of the archive, which S3
 * uploads are started, with which parameters, and what the call returns.
 * Streams and S3 are not modelled: `path.join` is the parameter `join`, and
 * the settled outcome of each upload is the parameter `done`.
 */
module UploadPlan {
  import opened Wrappers
  import opened Js
  import Decimal

  /** An archive entry: its path and its type (`'File'`, `'Directory'`, ...). */
  datatype ZipEntry = ZipEntry(path: string, kind: string)

  /** Where an upload's body streams from. */
  datatype Source = DownloadStream | EntryStream(path: string)

  /** A value in the parameters of an `Upload`. */
  datatype Param = Text(s: string) | Body(source: Source) | Extra(v: Value)

  /** How an upload settled: its result, or the error it rejected with. */
  datatype Outcome = Uploaded(result: Value) | UploadFailed(error: Thrown)

  /** What a successful call resolves to: one result, or one per uploaded file. */
  datatype Downloaded = Single(result: Value) | Many(results: seq<Value>)

  /** `{Bucket, Key, Body, ...s3UploadOptions}`: the caller's options come last and win. */
  function UploadParams(bucket: string, key: string, source: Source, options: map<string, Value>): (p: map<string, Param>)
    ensures p.Keys == {"Bucket", "Key", "Body"} + options.Keys
    ensures forall k :: k in options ==> p[k] == Extra(options[k])
    ensures "Bucket" !in options ==> p["Bucket"] == Text(bucket)
    ensures "Key" !in options ==> p["Key"] == Text(key)
    ensures "Body" !in options ==> p["Body"] == Body(source)
  {
    map["Bucket" := Text(bucket), "Key" := Text(key), "Body" := Body(source)]
      + map k | k in options :: Extra(options[k])
  }

  /** `'A'..'Z'` to lower case; other characters unchanged. */
  function LowerChar(c: char): char {
    if 'A' <= c <= 'Z' then ((c as int) + 32) as char else c
  }

  function Lower(s: string): (r: string)
    ensures |r| == |s| && forall i :: 0 <= i < |s| ==> r[i] == LowerChar(s[i])
  {
    seq(|s|, i requires 0 <= i < |s| => LowerChar(s[i]))
  }

  /** `sourceUrl.toLowerCase().endsWith('.zip')` */
  predicate IsZipUrl(url: string) {
    var lower := Lower(url);
    |lower| >= 4 && lower[|lower| - 4..] == ".zip"
  }

  /** The URL names a ZIP file exactly when its last four characters are `.zip` in any letter case. */
  lemma ZipUrlIsCaseInsensitiveSuffix(url: string)
    ensures IsZipUrl(url) <==>
      && |url| >= 4
      && url[|url| - 4] == '.'
      && url[|url| - 3] in {'z', 'Z'}
      && url[|url| - 2] in {'i', 'I'}
      && url[|url| - 1] in {'p', 'P'}
  {
    var lower := Lower(url);
    if |url| >= 4 {
      var n := |url|;
      assert lower[n - 4..] == [lower[n - 4], lower[n - 3], lower[n - 2], lower[n - 1]];
    }
  }

  /** The entries of type `'File'`, in archive order. */
  function Files(entries: seq<ZipEntry>): (r: seq<ZipEntry>)
    ensures forall i :: 0 <= i < |r| ==> r[i] in entries && r[i].kind == "File"
    ensures forall i :: 0 <= i < |entries| && entries[i].kind == "File" ==> entries[i] in r
    decreases |entries|
  {
    if |entries| == 0 then []
    else if entries[0].kind == "File" then [entries[0]] + Files(entries[1..])
    else Files(entries[1..])
  }

  /** Keeping the files of two runs of entries is keeping the files of each, in order. */
  lemma {:induction false} FilesAppend(a: seq<ZipEntry>, b: seq<ZipEntry>)
    ensures Files(a + b) == Files(a) + Files(b)
    decreases |a|
  {
    if |a| == 0 {
      assert a + b == b;
    } else {
      assert (a + b)[1..] == a[1..] + b;
      FilesAppend(a[1..], b);
    }
  }

  /** An upload the ZIP branch starts: the entry path and the upload's parameters. */
  datatype Planned = Planned(entryPath: string, params: map<string, Param>)

  /** One upload per file entry, in entry order, under `join(s3Key, entry.path)`. */
  function ZipPlan(bucket: string, s3Key: string, options: map<string, Value>, entries: seq<ZipEntry>, join: (string, string) -> string): (r: seq<Planned>)
    ensures |r| == |Files(entries)|
    ensures forall i :: 0 <= i < |r| ==>
      var f := Files(entries)[i];
      r[i] == Planned(f.path, UploadParams(bucket, join(s3Key, f.path), EntryStream(f.path), options))
  {
    var files := Files(entries);
    seq(|files|, i requires 0 <= i < |files| =>
      Planned(files[i].path, UploadParams(bucket, join(s3Key, files[i].path), EntryStream(files[i].path), options)))
  }

  /**
   * `Promise.all` over the uploads: every result in plan order when all
   * succeed, otherwise a new `Error` reading `Failed to upload <path>: <message>`
   * built from a failed one's error message (the first in plan order).
   */
  function Collect(plan: seq<Planned>, done: map<string, Param> -> Outcome): (r: Result<seq<Value>, Thrown>)
    ensures r.Success? <==> forall i :: 0 <= i < |plan| ==> done(plan[i].params).Uploaded?
    ensures r.Success? ==> |r.value| == |plan| && forall i :: 0 <= i < |plan| ==> r.value[i] == done(plan[i].params).result
    ensures r.Failure? ==>
      exists i :: 0 <= i < |plan| && done(plan[i].params).UploadFailed?
        && r.error == Error("Failed to upload " + plan[i].entryPath + ": " + Message(done(plan[i].params).error))
    decreases |plan|
  {
    if |plan| == 0 then Success([])
    else match done(plan[0].params)
      case UploadFailed(error) => Failure(Error("Failed to upload " + plan[0].entryPath + ": " + Message(error)))
      case Uploaded(result) =>
        match Collect(plan[1..], done)
        case Failure(e) => Failure(e)
        case Success(rest) => Success([result] + rest)
  }

  /**
   * `download(sourceUrl, bucketName, s3Key, s3UploadOptions)`. A non-2xx status
   * throws before any upload; a ZIP URL uploads the file entries; any other
   * URL is one upload under `s3Key` whose result, or error, is passed on as is.
   */
  function Download(status: int, url: string, bucket: string, s3Key: string, options: map<string, Value>,
                    entries: seq<ZipEntry>, join: (string, string) -> string, done: map<string, Param> -> Outcome): (r: Result<Downloaded, Thrown>)
    ensures !(200 <= status < 300) ==> r == Failure(Error("Failed to download file: Status code " + StatusText(status)))
    ensures r.Success? ==> (r.value.Many? <==> IsZipUrl(url))
    ensures r.Success? && r.value.Many? ==> |r.value.results| == |Files(entries)|
    ensures 200 <= status < 300 && IsZipUrl(url) ==>
      (r.Success? <==> forall i :: 0 <= i < |Files(entries)| ==> done(ZipPlan(bucket, s3Key, options, entries, join)[i].params).Uploaded?)
    ensures 200 <= status < 300 && !IsZipUrl(url) ==>
      (r.Success? <==> done(UploadParams(bucket, s3Key, DownloadStream, options)).Uploaded?)
    ensures 200 <= status < 300 && !IsZipUrl(url) && r.Success? ==>
      r.value == Single(done(UploadParams(bucket, s3Key, DownloadStream, options)).result)
    ensures 200 <= status < 300 && !IsZipUrl(url) && done(UploadParams(bucket, s3Key, DownloadStream, options)).UploadFailed? ==>
      r == Failure(done(UploadParams(bucket, s3Key, DownloadStream, options)).error)
    ensures 200 <= status < 300 && IsZipUrl(url) && r.Failure? ==>
      exists i :: 0 <= i < |Files(entries)| && done(ZipPlan(bucket, s3Key, options, entries, join)[i].params).UploadFailed?
        && r.error == Error("Failed to upload " + Files(entries)[i].path + ": " + Message(done(ZipPlan(bucket, s3Key, options, entries, join)[i].params).error))
  {
    if status < 200 || status >= 300 then Failure(Error("Failed to download file: Status code " + StatusText(status)))
    else if IsZipUrl(url) then
      match Collect(ZipPlan(bucket, s3Key, options, entries, join), done)
      case Success(results) => Success(Many(results))
      case Failure(e) => Failure(e)
    else
      match done(UploadParams(bucket, s3Key, DownloadStream, options))
      case Uploaded(result) => Success(Single(result))
      case UploadFailed(error) => Failure(error)
  }

  /** A status code as a template literal prints it. */
  function StatusText(status: int): string {
    if status < 0 then "-" + Decimal.FromNat(-status) else Decimal.FromNat(status)
  }

  /**
   * In the ZIP branch, when every upload succeeds the call returns exactly one
   * result per file entry, in entry order, each being the result of the upload
   * of that entry under `join(s3Key, path)`; directories contribute nothing.
   */
  lemma ZipResults(status: int, url: string, bucket: string, s3Key: string, options: map<string, Value>,
                   entries: seq<ZipEntry>, join: (string, string) -> string, done: map<string, Param> -> Outcome)
    requires 200 <= status < 300 && IsZipUrl(url)
    requires forall p :: done(p).Uploaded?
    ensures Download(status, url, bucket, s3Key, options, entries, join, done).Success?
    ensures
      var results := Download(status, url, bucket, s3Key, options, entries, join, done).value;
      && results.Many?
      && |results.results| == |Files(entries)|
      && forall i :: 0 <= i < |results.results| ==>
           results.results[i] == done(UploadParams(bucket, join(s3Key, Files(entries)[i].path), EntryStream(Files(entries)[i].path), options)).result
  {
  }

  /** An archive of directories only starts no upload and resolves to an empty list. */
  lemma {:induction false} DirectoriesOnly(entries: seq<ZipEntry>)
    requires forall i :: 0 <= i < |entries| ==> entries[i].kind != "File"
    ensures Files(entries) == []
    decreases |entries|
  {
    if |entries| > 0 {
      DirectoriesOnly(entries[1..]);
    }
  }

  /**
   * Only the planned uploads take part: two upload services that agree on
   * them give the same outcome. So a bad status starts no upload at all, and
   * a plain URL starts exactly the one upload under `s3Key`.
   */
  lemma OnlyPlannedUploadsMatter(status: int, url: string, bucket: string, s3Key: string, options: map<string, Value>,
                                 entries: seq<ZipEntry>, join: (string, string) -> string,
                                 done1: map<string, Param> -> Outcome, done2: map<string, Param> -> Outcome)
    requires 200 <= status < 300 && IsZipUrl(url) ==>
      forall i :: 0 <= i < |Files(entries)| ==>
        done1(ZipPlan(bucket, s3Key, options, entries, join)[i].params) == done2(ZipPlan(bucket, s3Key, options, entries, join)[i].params)
    requires 200 <= status < 300 && !IsZipUrl(url) ==>
      done1(UploadParams(bucket, s3Key, DownloadStream, options)) == done2(UploadParams(bucket, s3Key, DownloadStream, options))
    ensures Download(status, url, bucket, s3Key, options, entries, join, done1) == Download(status, url, bucket, s3Key, options, entries, join, done2)
  {
    if 200 <= status < 300 && IsZipUrl(url) {
      CollectAgrees(ZipPlan(bucket, s3Key, options, entries, join), done1, done2);
    }
  }

  lemma {:induction false} CollectAgrees(plan: seq<Planned>, done1: map<string, Param> -> Outcome, done2: map<string, Param> -> Outcome)
    requires forall i :: 0 <= i < |plan| ==> done1(plan[i].params) == done2(plan[i].params)
    ensures Collect(plan, done1) == Collect(plan, done2)
    decreases |plan|
  {
    if |plan| > 0 {
      CollectAgrees(plan[1..], done1, done2);
    }
  }
}
