/** `scripts/download-model-images.ts`: for each visual pipeline tag, the
  * script takes the listed models that are not blacklisted, in batches of
  * ten, finds each model's first preview image on its Hub page, saves it
  * under a file name derived from the model id, and records the image's
  * path per model together with a count of the files it downloaded.
  *
  * The network, the file system and the regular expression over the page
  * are given as values: a `Probe` per model says which `src` attributes
  * the page's `<img>` tags carry (none when the page could not be
  * fetched) and whether downloading succeeds; `files` is the set of file
  * names already in the images directory. */
module DownloadImages {
  import opened Wrappers
  import opened Text
  import opened Objects

  const ModelBlacklist: seq<string> := ["uriel353/flux-pawg"]
  const BatchSize: nat := 10
  const HubOrigin: string := "https://huggingface.co"
  const ImagesPrefix: string := "/model-images/"
  const DefaultExtension: string := "jpg"

  /** `isBlacklisted(modelId)`. */
  predicate IsBlacklisted(modelId: string)
  {
    modelId in ModelBlacklist
  }

  /** The models of a tag that are processed: the listed ones that are not
    * blacklisted, in order. */
  function ValidModels(models: seq<string>): (r: seq<string>)
    ensures forall id :: id in r <==> id in models && !IsBlacklisted(id)
  {
    if models == [] then []
    else
      var last := models[|models| - 1];
      ValidModels(models[..|models| - 1]) + if IsBlacklisted(last) then [] else [last]
  }

  // ----- file names -----

  /** The characters `sanitizeFilename` keeps: `[a-z0-9.-]`, either case. */
  predicate Allowed(c: char)
  {
    ('a' <= c <= 'z') || ('A' <= c <= 'Z') || ('0' <= c <= '9') || c == '.' || c == '-'
  }

  /** `sanitizeFilename(s)`: every other character becomes `_`. */
  function Sanitize(s: string): (r: string)
    ensures |r| == |s|
    ensures forall i :: 0 <= i < |s| ==> r[i] == if Allowed(s[i]) then s[i] else '_'
  {
    if s == [] then [] else [if Allowed(s[0]) then s[0] else '_'] + Sanitize(s[1..])
  }

  /** Sanitising keeps the length, leaves only allowed characters and `_`,
    * and changes nothing the second time. */
  lemma SanitizeFacts(s: string)
    ensures forall i :: 0 <= i < |s| ==> Allowed(Sanitize(s)[i]) || Sanitize(s)[i] == '_'
    ensures Sanitize(Sanitize(s)) == Sanitize(s)
  {
  }

  /** `s.replace(c, with)` with a one-character string pattern: the first
    * occurrence only. */
  function ReplaceFirst(s: string, c: char, with: char): (r: string)
    ensures |r| == |s|
  {
    match Find(s, c)
    case None => s
    case Some(i) => s[i := with]
  }

  /** The extension `firstImageUrl.split(".").pop()?.split("?")[0] || "jpg"`:
    * what follows the last `.`, up to the first `?`, or `jpg` when that is
    * empty. */
  function Extension(url: string): (ext: string)
  {
    var afterDot := Last(Split(url, '.'));
    var beforeQuery := Split(afterDot, '?')[0];
    if beforeQuery == "" then DefaultExtension else beforeQuery
  }

  /** An extension is never empty and holds neither `.` nor `?`. */
  lemma ExtensionFacts(url: string)
    ensures Extension(url) != ""
    ensures '.' !in Extension(url) && '?' !in Extension(url)
  {
    var parts := Split(url, '.');
    SplitPartsFree(url, '.');
    assert '.' !in Last(parts);
    SplitPartsFree(Last(parts), '?');
    var q := Split(Last(parts), '?')[0];
    forall i | 0 <= i < |q|
      ensures q[i] != '.'
    {
      SplitPartIn(Last(parts), '?', 0, i);
    }
  }

  /** Every character of a part of a split comes from the string split. */
  lemma {:induction false} SplitPartIn(s: string, c: char, k: nat, i: nat)
    requires k < |Split(s, c)| && i < |Split(s, c)[k]|
    ensures Split(s, c)[k][i] in s
    decreases |s|
  {
    match Find(s, c)
    case None =>
    case Some(j) =>
      if k == 0 {
        assert Split(s, c)[0] == s[..j];
        assert s[..j][i] == s[i];
      } else {
        SplitPartIn(s[j + 1..], c, k - 1, i);
        assert Split(s[j + 1..], c)[k - 1][i] in s[j + 1..];
      }
  }

  /** The file name `${sanitizeFilename(id.replace("/", "_"))}.${extension}`. */
  function Filename(modelId: string, url: string): string
  {
    Sanitize(ReplaceFirst(modelId, '/', '_')) + "." + Extension(url)
  }

  /** The recorded path of a saved image. */
  function ImagePath(filename: string): string
  {
    ImagesPrefix + filename
  }

  /** A file name holds as many characters before its last `.` as the model
    * id has, none of them a `/`; after it comes the image URL's extension,
    * so the recorded path has the extension of the URL. */
  lemma FilenameShape(modelId: string, url: string)
    ensures var stem := Sanitize(ReplaceFirst(modelId, '/', '_'));
      |stem| == |modelId| && '/' !in stem
      && Filename(modelId, url) == stem + "." + Extension(url)
    ensures Extension(ImagePath(Filename(modelId, url))) == Extension(url)
  {
    var stem := Sanitize(ReplaceFirst(modelId, '/', '_'));
    var ext := Extension(url);
    ExtensionFacts(url);
    assert ImagePath(Filename(modelId, url)) == ImagesPrefix + stem + ['.'] + ext;
    LastPart(ImagesPrefix + stem, ext, '.');
    SplitNoSeparator(ext, '?');
  }

  /** The last part of `x + [c] + tail` split at `c`, for a `tail` free of
    * `c`, is `tail`. */
  lemma {:induction false} LastPart(x: string, tail: string, c: char)
    requires c !in tail
    ensures Last(Split(x + [c] + tail, c)) == tail
    decreases |x|
  {
    var s := x + [c] + tail;
    assert s[|x|] == c;
    match Find(s, c)
    case None =>
      assert false;
    case Some(i) =>
      if i == |x| {
        assert s[i + 1..] == tail;
        SplitNoSeparator(tail, c);
      } else {
        assert i < |x|;
        assert s[i + 1..] == x[i + 1..] + [c] + tail;
        LastPart(x[i + 1..], tail, c);
      }
  }

  // ----- preview images -----

  /** The image-src filter: the src mentions `/<modelId>/` or
    * `/<modelId>/resolve/`. */
  predicate KeepSrc(src: string, modelId: string)
  {
    Contains(src, "/" + modelId + "/") || Contains(src, "/" + modelId + "/resolve/")
  }

  /** The `/resolve/` test adds nothing: a src is kept exactly when it
    * mentions `/<modelId>/`. */
  lemma KeepSrcIff(src: string, modelId: string)
    ensures KeepSrc(src, modelId) <==> Contains(src, "/" + modelId + "/")
  {
    var needle := "/" + modelId + "/";
    var longer := needle + "resolve/";
    assert "/" + modelId + "/resolve/" == longer;
    if Contains(src, longer) {
      ContainsIff(src, longer);
      var i: nat :| OccursAt(src, longer, i);
      assert src[i..i + |needle|] == src[i..i + |longer|][..|needle|];
      assert OccursAt(src, needle, i);
      ContainsIff(src, needle);
    }
  }

  /** A relative src is made absolute on the Hub. */
  function Absolute(src: string): (r: string)
    ensures StartsWith(src, "/") ==> r == HubOrigin + src
    ensures !StartsWith(src, "/") ==> r == src
  {
    if StartsWith(src, "/") then HubOrigin + src else src
  }

  /** Making a src absolute twice changes nothing more. */
  lemma AbsoluteIdempotent(src: string)
    ensures Absolute(Absolute(src)) == Absolute(src)
  {
    if StartsWith(src, "/") {
      var r := HubOrigin + src;
      assert r[0] == HubOrigin[0] == 'h';
      assert !StartsWith(r, "/");
    }
  }

  /** What the src mentions the absolute URL mentions too. */
  lemma AbsoluteKeepsContains(src: string, needle: string)
    requires Contains(src, needle)
    ensures Contains(Absolute(src), needle)
  {
    if StartsWith(src, "/") {
      ContainsAfterPrefix(HubOrigin, src, needle);
    }
  }

  /** The kept srcs, made absolute, in page order. */
  function Kept(srcs: seq<string>, modelId: string): (r: seq<string>)
    ensures forall u :: u in r ==> exists s :: s in srcs && KeepSrc(s, modelId) && u == Absolute(s)
    ensures forall s :: s in srcs && KeepSrc(s, modelId) ==> Absolute(s) in r
  {
    if srcs == [] then []
    else
      var rest := Kept(srcs[1..], modelId);
      assert forall s :: s in srcs[1..] ==> s in srcs;
      (if KeepSrc(srcs[0], modelId) then [Absolute(srcs[0])] else []) + rest
  }

  /** `getModelPreviewImages(modelId)`: nothing when the page could not be
    * fetched, otherwise the kept srcs made absolute. */
  function PreviewImages(modelId: string, page: Option<seq<string>>): seq<string>
  {
    if page.None? then [] else Kept(page.value, modelId)
  }

  /** Every preview image URL mentions `/<modelId>/`. */
  lemma PreviewImagesMentionModel(modelId: string, page: Option<seq<string>>, u: string)
    requires u in PreviewImages(modelId, page)
    ensures Contains(u, "/" + modelId + "/")
  {
    var s :| s in page.value && KeepSrc(s, modelId) && u == Absolute(s);
    KeepSrcIff(s, modelId);
    AbsoluteKeepsContains(s, "/" + modelId + "/");
  }

  // ----- one model -----

  /** What the I/O of one model gives: the `src` of every `<img>` on its
    * page (`None` when the page could not be fetched) and whether
    * downloading its image succeeds. */
  datatype Probe = Probe(page: Option<seq<string>>, downloadOk: bool)

  /** A batch result: `{ modelId, path, downloaded }`. */
  datatype Found = Found(modelId: string, path: string, downloaded: bool)

  /** The batch callback for one model: `None` for `null`. */
  function Outcome(files: set<string>, modelId: string, p: Probe): Option<Found>
  {
    var urls := PreviewImages(modelId, p.page);
    if urls == [] then None
    else
      var filename := Filename(modelId, urls[0]);
      if filename in files then Some(Found(modelId, ImagePath(filename), false))
      else if p.downloadOk then Some(Found(modelId, ImagePath(filename), true))
      else None
  }

  /** The images directory after the callback for one model. */
  function Written(files: set<string>, modelId: string, p: Probe): set<string>
  {
    var urls := PreviewImages(modelId, p.page);
    if urls == [] then files
    else
      var filename := Filename(modelId, urls[0]);
      if filename !in files && p.downloadOk then files + {filename} else files
  }

  /** A result names the model it is for and the file of its first preview
    * image; a file already present is mapped but not downloaded again, and
    * a downloaded file is one that was not there before and is there
    * afterwards. */
  lemma OutcomeFacts(files: set<string>, modelId: string, p: Probe)
    ensures var r := Outcome(files, modelId, p);
      r.Some? ==> (r.value.modelId == modelId && PreviewImages(modelId, p.page) != []
        && r.value.path == ImagePath(Filename(modelId, PreviewImages(modelId, p.page)[0])))
    ensures var r := Outcome(files, modelId, p);
      r.Some? && r.value.downloaded ==> r.value.path[|ImagesPrefix|..] !in files && r.value.path[|ImagesPrefix|..] in Written(files, modelId, p)
    ensures var r := Outcome(files, modelId, p);
      r.Some? && !r.value.downloaded ==> r.value.path[|ImagesPrefix|..] in files && Written(files, modelId, p) == files
    ensures files <= Written(files, modelId, p)
  {
    var urls := PreviewImages(modelId, p.page);
    if urls != [] {
      var filename := Filename(modelId, urls[0]);
      assert ImagePath(filename)[|ImagesPrefix|..] == filename;
    }
  }

  // ----- a run -----

  /** The batch results for `ids` processed one after another, and the
    * images directory afterwards. */
  function Run(files: set<string>, ids: seq<string>, probe: string -> Probe): (seq<Option<Found>>, set<string>)
  {
    if ids == [] then ([], files)
    else
      var before := Run(files, ids[..|ids| - 1], probe);
      var last := ids[|ids| - 1];
      (before.0 + [Outcome(before.1, last, probe(last))], Written(before.1, last, probe(last)))
  }

  /** Recording results: each non-null result maps its model to its path,
    * and each downloaded one adds to the count. */
  function Recorded(imageMap: Object<string>, total: nat, results: seq<Option<Found>>): (Object<string>, nat)
  {
    if results == [] then (imageMap, total)
    else
      var before := Recorded(imageMap, total, results[..|results| - 1]);
      var r := results[|results| - 1];
      if r.None? then before
      else (Assign(before.0, r.value.modelId, r.value.path), if r.value.downloaded then before.1 + 1 else before.1)
  }

  /** Running two lists one after the other is running their concatenation. */
  lemma {:induction false} RunAppend(files: set<string>, a: seq<string>, b: seq<string>, probe: string -> Probe)
    ensures Run(files, a + b, probe).0 == Run(files, a, probe).0 + Run(Run(files, a, probe).1, b, probe).0
    ensures Run(files, a + b, probe).1 == Run(Run(files, a, probe).1, b, probe).1
    decreases |b|
  {
    if b == [] {
      assert a + b == a;
    } else {
      var b' := b[..|b| - 1];
      var last := b[|b| - 1];
      assert (a + b)[..|a + b| - 1] == a + b' && (a + b)[|a + b| - 1] == last;
      RunAppend(files, a, b', probe);
      var whole := Run(files, a + b', probe);
      var ra := Run(files, a, probe);
      var mid := Run(ra.1, b', probe);
      var o := Outcome(mid.1, last, probe(last));
      assert Run(files, a + b, probe) == (whole.0 + [o], Written(mid.1, last, probe(last)));
      assert Run(ra.1, b, probe) == (mid.0 + [o], Written(mid.1, last, probe(last)));
      assert ra.0 + mid.0 + [o] == ra.0 + (mid.0 + [o]);
    }
  }

  /** Recording two lists of results one after the other is recording their
    * concatenation. */
  lemma {:induction false} RecordedAppend(imageMap: Object<string>, total: nat, a: seq<Option<Found>>, b: seq<Option<Found>>)
    ensures Recorded(imageMap, total, a + b) == Recorded(Recorded(imageMap, total, a).0, Recorded(imageMap, total, a).1, b)
    decreases |b|
  {
    if b == [] {
      assert a + b == a;
    } else {
      var b' := b[..|b| - 1];
      assert (a + b)[..|a + b| - 1] == a + b';
      RecordedAppend(imageMap, total, a, b');
    }
  }

  /** The `k`-th result of a run is for the `k`-th model. */
  lemma {:induction false} RunResultsFor(files: set<string>, ids: seq<string>, probe: string -> Probe, k: nat)
    ensures |Run(files, ids, probe).0| == |ids|
    ensures k < |ids| && Run(files, ids, probe).0[k].Some? ==> Run(files, ids, probe).0[k].value.modelId == ids[k]
    decreases |ids|
  {
    if ids != [] {
      var init := ids[..|ids| - 1];
      RunResultsFor(files, init, probe, k);
      if k == |ids| - 1 {
        OutcomeFacts(Run(files, init, probe).1, ids[k], probe(ids[k]));
      }
    }
  }

  /** A model gets an entry in the map only when one of the results is for
    * it; the count grows by at most one per result. */
  lemma {:induction false} RecordedFacts(imageMap: Object<string>, total: nat, results: seq<Option<Found>>, id: string)
    ensures Lookup(Recorded(imageMap, total, results).0, id).Some? ==>
      Lookup(imageMap, id).Some? || Some(id) in Ids(results)
    ensures total <= Recorded(imageMap, total, results).1 <= total + |results|
    decreases |results|
  {
    if results != [] {
      var init := results[..|results| - 1];
      RecordedFacts(imageMap, total, init, id);
      var r := results[|results| - 1];
      assert Ids(results) == Ids(init) + [if r.Some? then Some(r.value.modelId) else None];
      if r.Some? {
        AssignLookup(Recorded(imageMap, total, init).0, r.value.modelId, r.value.path, id);
      }
    }
  }

  /** The model each result is for, `None` for a null result. */
  function Ids(results: seq<Option<Found>>): (r: seq<Option<string>>)
    ensures |r| == |results|
    ensures forall k :: 0 <= k < |r| ==> r[k] == if results[k].Some? then Some(results[k].value.modelId) else None
  {
    if results == [] then []
    else Ids(results[..|results| - 1]) + [if results[|results| - 1].Some? then Some(results[|results| - 1].value.modelId) else None]
  }

  /** A blacklisted model is never mapped by processing a tag. */
  lemma BlacklistedNeverMapped(imageMap: Object<string>, total: nat, files: set<string>, models: seq<string>,
                               probe: string -> Probe, id: string)
    requires IsBlacklisted(id) && Lookup(imageMap, id).None?
    ensures Lookup(Recorded(imageMap, total, Run(files, ValidModels(models), probe).0).0, id).None?
  {
    var valid := ValidModels(models);
    var results := Run(files, valid, probe).0;
    RecordedFacts(imageMap, total, results, id);
    if Some(id) in Ids(results) {
      var k :| 0 <= k < |Ids(results)| && Ids(results)[k] == Some(id);
      RunResultsFor(files, valid, probe, k);
    }
  }

  /** The state the script builds: the image map, the download count and
    * the files in the images directory. */
  class ImageDownload {
    var imageMap: Object<string>
    var totalDownloaded: nat
    var files: set<string>

    constructor(files: set<string>)
      ensures imageMap == [] && totalDownloaded == 0 && this.files == files
    {
      imageMap := [];
      totalDownloaded := 0;
      this.files := files;
    }

    /** The callbacks of one batch, one model after another: the results
      * and the files written. */
    method ProcessBatch(batch: seq<string>, probe: string -> Probe) returns (results: seq<Option<Found>>)
      modifies this
      ensures (results, files) == Run(old(files), batch, probe)
      ensures imageMap == old(imageMap) && totalDownloaded == old(totalDownloaded)
    {
      results := [];
      for j := 0 to |batch|
        invariant (results, files) == Run(old(files), batch[..j], probe)
        invariant imageMap == old(imageMap) && totalDownloaded == old(totalDownloaded)
      {
        assert batch[..j + 1][..j] == batch[..j];
        var id := batch[j];
        var r := Outcome(files, id, probe(id));
        files := Written(files, id, probe(id));
        results := results + [r];
      }
      assert batch[..|batch|] == batch;
    }

    /** `results.forEach(...)`: each result recorded in order. */
    method RecordResults(results: seq<Option<Found>>)
      modifies this
      ensures (imageMap, totalDownloaded) == Recorded(old(imageMap), old(totalDownloaded), results)
      ensures files == old(files)
    {
      for k := 0 to |results|
        invariant (imageMap, totalDownloaded) == Recorded(old(imageMap), old(totalDownloaded), results[..k])
        invariant files == old(files)
      {
        assert results[..k + 1][..k] == results[..k];
        var r := results[k];
        if r.Some? {
          imageMap := Assign(imageMap, r.value.modelId, r.value.path);
          if r.value.downloaded {
            totalDownloaded := totalDownloaded + 1;
          }
        }
      }
      assert results[..|results|] == results;
    }

    /** The state is that of recording the run of `ids` from `files0` on
      * top of `imageMap0` and `total0`. */
    ghost predicate Reached(imageMap0: Object<string>, total0: nat, files0: set<string>, ids: seq<string>,
                            probe: string -> Probe)
      reads this
    {
      var run := Run(files0, ids, probe);
      (imageMap, totalDownloaded) == Recorded(imageMap0, total0, run.0) && files == run.1
    }

    /** One tag of `main`: the valid models in batches of ten; every batch
      * is processed, then its results are recorded in order. The state
      * afterwards is that of processing every valid model once, in order. */
    method ProcessTag(models: seq<string>, probe: string -> Probe)
      modifies this
      ensures var run := Run(old(files), ValidModels(models), probe);
        (imageMap, totalDownloaded) == Recorded(old(imageMap), old(totalDownloaded), run.0) && files == run.1
    {
      var valid := ValidModels(models);
      var i := 0;
      ghost var done := 0;
      while i < |valid|
        invariant 0 <= i && done == (if i < |valid| then i else |valid|)
        invariant Reached(old(imageMap), old(totalDownloaded), old(files), valid[..done], probe)
      {
        var end := if i + BatchSize < |valid| then i + BatchSize else |valid|;
        var batch := valid[i..end];
        var results := ProcessBatch(batch, probe);
        RecordResults(results);
        BatchStep(old(files), old(imageMap), old(totalDownloaded), valid, i, end, probe);
        i := i + BatchSize;
        done := end;
      }
      assert valid[..|valid|] == valid;
    }
  }

  /** Processing the models of `valid` up to `i`, then those from `i` to
    * `end`, is processing those up to `end`. */
  lemma BatchStep(files: set<string>, imageMap: Object<string>, total: nat, valid: seq<string>, i: nat, end: nat,
                  probe: string -> Probe)
    requires i <= end <= |valid|
    ensures var before := Run(files, valid[..i], probe);
      var batch := Run(before.1, valid[i..end], probe);
      var recorded := Recorded(imageMap, total, before.0);
      Run(files, valid[..end], probe) == (before.0 + batch.0, batch.1)
      && Recorded(imageMap, total, Run(files, valid[..end], probe).0) == Recorded(recorded.0, recorded.1, batch.0)
  {
    assert valid[..end] == valid[..i] + valid[i..end];
    RunAppend(files, valid[..i], valid[i..end], probe);
    var before := Run(files, valid[..i], probe);
    RecordedAppend(imageMap, total, before.0, Run(before.1, valid[i..end], probe).0);
  }

  /** What `main` builds from the models listed for each visual tag, one
    * tag after another. */
  function AllTags(imageMap: Object<string>, total: nat, files: set<string>, tags: seq<seq<string>>,
                   probe: string -> Probe): (Object<string>, nat, set<string>)
  {
    if tags == [] then (imageMap, total, files)
    else
      var before := AllTags(imageMap, total, files, tags[..|tags| - 1], probe);
      var run := Run(before.2, ValidModels(tags[|tags| - 1]), probe);
      var recorded := Recorded(before.0, before.1, run.0);
      (recorded.0, recorded.1, run.1)
  }

  /** The listings of the tags, up to the first one that failed: a
    * rejected `fetch`, a body that is not JSON, or a body that is not an
    * array (whose `filter` then throws). A non-ok status is an empty list,
    * not a failure. */
  function ListedPrefix(tags: seq<Option<seq<string>>>): (r: seq<seq<string>>)
    ensures |r| <= |tags|
    ensures forall k :: 0 <= k < |r| ==> tags[k] == Some(r[k])
    ensures |r| < |tags| ==> tags[|r|].None?
  {
    if tags == [] || tags[0].None? then [] else [tags[0].value] + ListedPrefix(tags[1..])
  }

  /** `main`: every tag's models processed in turn, starting from an empty
    * map and count. A listing that fails rejects `main` before the mapping
    * is written (`mapping` is `None`), while the images of the tags before
    * it stay downloaded. */
  method DownloadAll(files: set<string>, tags: seq<Option<seq<string>>>, probe: string -> Probe)
    returns (mapping: Option<Object<string>>, totalDownloaded: nat, filesAfter: set<string>)
    ensures var listed := ListedPrefix(tags);
      var r := AllTags([], 0, files, listed, probe);
      totalDownloaded == r.1 && filesAfter == r.2
      && (mapping.Some? <==> |listed| == |tags|)
      && (mapping.Some? ==> mapping.value == r.0)
    ensures mapping.Some? <==> forall k :: 0 <= k < |tags| ==> tags[k].Some?
  {
    ghost var listed := ListedPrefix(tags);
    var d := new ImageDownload(files);
    for t := 0 to |tags|
      invariant t <= |listed|
      invariant forall k :: 0 <= k < t ==> tags[k].Some?
      invariant (d.imageMap, d.totalDownloaded, d.files) == AllTags([], 0, files, listed[..t], probe)
    {
      if tags[t].None? {
        assert |listed| == t;
        assert listed[..t] == listed;
        return None, d.totalDownloaded, d.files;
      }
      assert t < |listed|;
      assert listed[..t + 1][..t] == listed[..t] && listed[t] == tags[t].value;
      d.ProcessTag(tags[t].value, probe);
    }
    assert listed[..|tags|] == listed;
    mapping, totalDownloaded, filesAfter := Some(d.imageMap), d.totalDownloaded, d.files;
  }
}
