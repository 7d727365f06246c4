/** Render-job manifests: one JSON manifest per render job, stored under the
    job's directory. A manifest is created queued; later partial updates are
    merged into it, where an absent or null output or error keeps what was
    stored before. */
module Renders {
  import opened Common

  // -----------------------------------------------------------------------
  // Entities

  /** `RenderJobStatus`. */
  datatype Status = Queued | Processing | Completed | Failed

  datatype Resolution = Res720p | Res1080p

  /** "9:16", "1:1" and "16:9". */
  datatype Aspect = Portrait | Square | Landscape

  /** `RenderJobOptions`, with the two mixing settings the worker reads
      beyond the declared ones (`duckingDb`, `fadeMs`). */
  datatype Options = Options(
    resolution: Resolution, aspect: Aspect, includeMusic: bool, includeOriginal: bool,
    musicGainDb: Option<real>, duckingDb: Option<real>, fadeMs: Option<real>)

  datatype Segment = Segment(start: real, end: real)

  datatype StorageKind = Local | S3

  /** `StoredFileSummary`. */
  datatype FileSummary = FileSummary(
    id: string, path: string, size: int, originalName: string, mimeType: string,
    checksum: string, storage: StorageKind, bucket: Option<string>, key: Option<string>)

  /** A stored manifest. `attempts` and `progress` are not declared in the
      manifest's type but reach it through the spread of an update. */
  datatype Manifest = Manifest(
    id: string, uploadId: string, createdAt: string, updatedAt: string, status: Status,
    segment: Segment, options: Options, output: Option<FileSummary>, error: Option<string>,
    attempts: Option<int>, progress: Option<real>)

  /** A partial update. For `status`, `output` and `error`, None stands for
      both an absent key and null, which `??` treats alike; for `attempts`
      and `progress`, None is an absent key. */
  datatype Update = Update(
    status: Option<Status>, output: Option<FileSummary>, error: Option<string>,
    attempts: Option<int>, progress: Option<real>)

  /** The update that supplies nothing. */
  const NoChange: Update := Update(None, None, None, None, None)

  // -----------------------------------------------------------------------
  // Creating and merging

  /** The manifest `createRenderJobManifest` writes, with `now` for the
      clock and `id` for the generated UUID. */
  function NewManifest(id: string, uploadId: string, segment: Segment, options: Options, now: string): Manifest
  {
    Manifest(id, uploadId, now, now, Queued, segment, options, None, None, None, None)
  }

  /** The merge of `updateRenderJobManifest`: the spread copies
      `attempts` and `progress` when the update has them, the explicit keys
      then take `update.x ?? current.x` and `updatedAt` is refreshed. */
  function Merge(current: Manifest, update: Update, now: string): Manifest
  {
    current.(
      updatedAt := now,
      status := update.status.OrElse(current.status),
      output := if update.output.Some? then update.output else current.output,
      error := if update.error.Some? then update.error else current.error,
      attempts := if update.attempts.Some? then update.attempts else current.attempts,
      progress := if update.progress.Some? then update.progress else current.progress)
  }

  /** A new manifest is queued, without output or error, and carries the
      request's upload, segment and options with both timestamps set. */
  lemma NewManifestFacts(id: string, uploadId: string, segment: Segment, options: Options, now: string)
    ensures var m := NewManifest(id, uploadId, segment, options, now);
            && m.id == id && m.uploadId == uploadId && m.segment == segment && m.options == options
            && m.status == Queued && m.output == None && m.error == None
            && m.createdAt == now && m.updatedAt == now
  {
  }

  /** One update after another acts as a single update in which the later
      one's supplied keys win. */
  function Then(first: Update, second: Update): Update
  {
    Update(
      if second.status.Some? then second.status else first.status,
      if second.output.Some? then second.output else first.output,
      if second.error.Some? then second.error else first.error,
      if second.attempts.Some? then second.attempts else first.attempts,
      if second.progress.Some? then second.progress else first.progress)
  }

  /** Merging twice composes: the result is the merge of the combined
      update, stamped with the later time. */
  lemma MergeComposes(m: Manifest, first: Update, second: Update, t1: string, t2: string)
    ensures Merge(Merge(m, first, t1), second, t2) == Merge(m, Then(first, second), t2)
  {
  }

  /** Repeating an update changes nothing more. */
  lemma MergeIdempotent(m: Manifest, u: Update, now: string)
    ensures Merge(Merge(m, u, now), u, now) == Merge(m, u, now)
  {
    MergeComposes(m, u, u, now, now);
    assert Then(u, u) == u;
  }

  /** An update that supplies nothing only refreshes `updatedAt`. */
  lemma NoChangeOnlyTouches(m: Manifest, now: string)
    ensures Merge(m, NoChange, now) == m.(updatedAt := now)
  {
  }

  /** The manifest after a run of updates. */
  function MergeAll(m: Manifest, updates: seq<Update>, now: string): Manifest
    decreases |updates|
  {
    if updates == [] then m else MergeAll(Merge(m, updates[0], now), updates[1..], now)
  }

  /** Two updates in a row. */
  lemma MergeTwo(m: Manifest, first: Update, second: Update, now: string)
    ensures MergeAll(m, [first, second], now) == Merge(Merge(m, first, now), second, now)
  {
    var m1 := Merge(m, first, now);
    assert [first, second][1..] == [second];
    assert MergeAll(m, [first, second], now) == MergeAll(m1, [second], now);
    assert [second][1..] == [];
    assert MergeAll(m1, [second], now) == MergeAll(Merge(m1, second, now), [], now);
  }

  /** The status of the last update that supplies one, or `status` when
      none does. */
  function LastStatus(status: Status, updates: seq<Update>): Status
    decreases |updates|
  {
    if updates == [] then status
    else match updates[|updates| - 1].status
      case Some(last) => last
      case None => LastStatus(status, updates[..|updates| - 1])
  }

  /** Taking the first update's status, if any, and then the last of the
      rest is the last of them all. */
  lemma {:induction false} LastStatusOfFirst(status: Status, first: Update, rest: seq<Update>)
    ensures LastStatus(first.status.OrElse(status), rest) == LastStatus(status, [first] + rest)
    decreases |rest|
  {
    var all := [first] + rest;
    if rest != [] {
      assert all[|all| - 1] == rest[|rest| - 1];
      assert all[..|all| - 1] == [first] + rest[..|rest| - 1];
      LastStatusOfFirst(status, first, rest[..|rest| - 1]);
    } else {
      assert all[..|all| - 1] == [];
    }
  }

  /** Whatever updates follow, the job's id, upload, creation time, segment
      and options stay those it was created with; a stored output or error
      is never cleared, since a null update leaves it as it was; and the
      status is that of the last update supplying one, or the old one. */
  lemma {:induction false} MergeAllKeeps(m: Manifest, updates: seq<Update>, now: string)
    ensures var r := MergeAll(m, updates, now);
            && r.id == m.id && r.uploadId == m.uploadId && r.createdAt == m.createdAt
            && r.segment == m.segment && r.options == m.options
            && (m.output.Some? ==> r.output.Some?)
            && (m.error.Some? ==> r.error.Some?)
            && r.status == LastStatus(m.status, updates)
    decreases |updates|
  {
    if updates != [] {
      var m' := Merge(m, updates[0], now);
      MergeAllKeeps(m', updates[1..], now);
      LastStatusOfFirst(m.status, updates[0], updates[1..]);
      assert [updates[0]] + updates[1..] == updates;
    }
  }

  /** A null error in an update keeps the stored error, and so does an
      update that says nothing about it; only a new message replaces it. */
  lemma NullKeepsError(m: Manifest, u: Update, now: string)
    ensures u.error == None ==> Merge(m, u, now).error == m.error
    ensures u.output == None ==> Merge(m, u, now).output == m.output
  {
  }

  // -----------------------------------------------------------------------
  // Paths and URLs

  /** `jobDir`: the job's directory under the render root
      (`path.join(renderRoot, id)`). */
  function JobDir(root: string, id: string): string
  {
    root + "/" + id
  }

  /** `renderOutputPath`. */
  function RenderOutputPath(root: string, id: string): string
  {
    JobDir(root, id) + "/output.mp4"
  }

  /** `ensureDownloadUrl`. */
  function DownloadUrl(id: string): string
  {
    "/api/render/" + id + "/file"
  }

  /** The output file lies in the job's directory and is named output.mp4,
      and two jobs never share an output file. */
  lemma OutputPathsDistinct(root: string, a: string, b: string)
    ensures RenderOutputPath(root, a)[..|root| + 1 + |a|] == JobDir(root, a)
    ensures RenderOutputPath(root, a)[|root| + 1 + |a|..] == "/output.mp4"
    ensures a != b ==> RenderOutputPath(root, a) != RenderOutputPath(root, b)
  {
    var pa, pb := RenderOutputPath(root, a), RenderOutputPath(root, b);
    assert pa[|root| + 1..|pa| - 11] == a;
    assert pb[|root| + 1..|pb| - 11] == b;
  }

  const RoutePrefix: string := "/api/render/"
  const RouteSuffix: string := "/file"

  /** The `[id]` of the route `/api/render/[id]/file`: the one non-empty
      path segment between the prefix and the suffix. */
  function RouteId(url: string): Option<string>
  {
    if |url| > |RoutePrefix| + |RouteSuffix| && url[..|RoutePrefix|] == RoutePrefix
       && url[|url| - |RouteSuffix|..] == RouteSuffix
       && '/' !in url[|RoutePrefix|..|url| - |RouteSuffix|]
    then Some(url[|RoutePrefix|..|url| - |RouteSuffix|])
    else None
  }

  /** The download URL of a job leads the file route back to that job, and
      the file route answers only download URLs. */
  lemma DownloadUrlRoundTrip(id: string, url: string)
    ensures id != [] && '/' !in id ==> RouteId(DownloadUrl(id)) == Some(id)
    ensures RouteId(url) == Some(id) ==> url == DownloadUrl(id)
  {
    var u := DownloadUrl(id);
    assert u[..|RoutePrefix|] == RoutePrefix;
    assert u[|u| - |RouteSuffix|..] == RouteSuffix;
    assert u[|RoutePrefix|..|u| - |RouteSuffix|] == id;
    if RouteId(url) == Some(id) {
      assert url == url[..|RoutePrefix|] + url[|RoutePrefix|..|url| - |RouteSuffix|] + url[|url| - |RouteSuffix|..];
    }
  }

  // -----------------------------------------------------------------------
  // The manifest files

  /** The manifests on disk, one `meta.json` per job id. */
  class ManifestStore {
    var manifests: map<string, Manifest>

    /** Every manifest is filed under its own id. */
    ghost predicate Valid()
      reads this
    {
      forall id :: id in manifests ==> manifests[id].id == id
    }

    constructor ()
      ensures manifests == map[] && Valid()
    {
      manifests := map[];
    }

    /** `getRenderJobManifest`: null when the job has no manifest. */
    function Get(id: string): (r: Option<Manifest>)
      reads this
      ensures r.Some? <==> id in manifests
    {
      if id in manifests then Some(manifests[id]) else None
    }

    /** `createRenderJobManifest`: writes a queued manifest for the job. */
    method Create(id: string, uploadId: string, segment: Segment, options: Options, now: string)
      returns (m: Manifest)
      requires Valid()
      modifies this
      ensures m == NewManifest(id, uploadId, segment, options, now)
      ensures manifests == old(manifests)[id := m] && Valid()
    {
      m := NewManifest(id, uploadId, segment, options, now);
      manifests := manifests[id := m];
    }

    /** `updateRenderJobManifest`: null and nothing written for an unknown
      job; otherwise the merge is written and returned. */
    method Update(id: string, update: Update, now: string) returns (r: Option<Manifest>)
      requires Valid()
      modifies this
      ensures Valid()
      ensures id !in old(manifests) ==> r == None && manifests == old(manifests)
      ensures id in old(manifests) ==>
                r == Some(Merge(old(manifests)[id], update, now)) && manifests == old(manifests)[id := r.value]
    {
      if id !in manifests {
        return None;
      }
      var next := Merge(manifests[id], update, now);
      manifests := manifests[id := next];
      return Some(next);
    }
  }
}
