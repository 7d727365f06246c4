/** The render worker: `processManifest` walks one job through processing to
    completed or failed by a sequence of manifest updates; the in-memory
    queue drains its jobs in the order they were enqueued; `getRenderJob`
    is the public view of a job. */
module RenderQueue {
  import opened Common
  import opened Renders

  // -----------------------------------------------------------------------
  // Inputs of the worker

  /** What the worker needs of `StoredUploadSummary`: its video and its
      optional audio file. */
  datatype Upload = Upload(id: string, video: FileSummary, audio: Option<FileSummary>)

  /** The arguments `processManifest` passes to `renderPreview`. A local
      file stands for the path `ensureLocalPath` makes of it. */
  datatype EncoderRequest = EncoderRequest(
    inputVideo: FileSummary, music: Option<FileSummary>, outputPath: string, muteOriginal: bool,
    musicGainDb: real, duckingDb: real, fadeMs: real, startTime: real, duration: Option<real>)

  /** How rendering and persisting the output end: with the stored output's
      summary, or with a thrown value (its message when it is an `Error`). */
  datatype EncoderOutcome = Rendered(summary: FileSummary) | Throws(message: Option<string>)

  /** How `processManifest` itself ends: it returns, or rethrows the
      encoder's error. */
  datatype Processed = Returned | Rethrows(error: string)

  const DefaultMusicGainDb: real := 0.0
  const DefaultDuckingDb: real := 8.0
  const DefaultFadeMs: real := 250.0

  const UploadNotFound: string := "upload not found"
  const MissingAudio: string := "upload is missing an audio track for mixing"
  const RenderFailed: string := "render failed"

  // -----------------------------------------------------------------------
  // processManifest

  /** The call to the encoder for a job and its upload. */
  function EncoderRequestFor(m: Manifest, upload: Upload, root: string): EncoderRequest
  {
    var duration := Max(m.segment.end - m.segment.start, 0.0);
    EncoderRequest(
      upload.video,
      if m.options.includeMusic && upload.audio.Some? then upload.audio else None,
      RenderOutputPath(root, m.id),
      !m.options.includeOriginal,
      m.options.musicGainDb.OrElse(DefaultMusicGainDb),
      m.options.duckingDb.OrElse(DefaultDuckingDb),
      m.options.fadeMs.OrElse(DefaultFadeMs),
      m.segment.start,
      if duration > 0.0 then Some(duration) else None)
  }

  /** The encoder renders the segment from its start, for its length only
      when that is positive, into the job's output file, with the mixing
      defaults where the options say nothing, and mixes music exactly when
      the job asks for it and the upload has audio. */
  lemma EncoderRequestFacts(m: Manifest, upload: Upload, root: string)
    ensures var r := EncoderRequestFor(m, upload, root);
            && r.inputVideo == upload.video
            && r.outputPath == RenderOutputPath(root, m.id)
            && r.startTime == m.segment.start
            && (r.duration.Some? <==> m.segment.end > m.segment.start)
            && (r.duration.Some? ==> r.duration.value == m.segment.end - m.segment.start && r.duration.value > 0.0)
            && (r.music.Some? <==> m.options.includeMusic && upload.audio.Some?)
            && (m.options.duckingDb == None ==> r.duckingDb == 8.0)
            && (m.options.fadeMs == None ==> r.fadeMs == 250.0)
            && (m.options.musicGainDb == None ==> r.musicGainDb == 0.0)
  {
  }

  /** The update that marks a job failed with `message`. */
  function FailWith(message: string): Update
  {
    Update(Some(Failed), None, Some(message), None, None)
  }

  /** The first update: processing, one more attempt, and `error: null`. */
  function StartUpdate(m: Manifest): Update
  {
    Update(Some(Processing), None, None, Some(m.attempts.OrElse(0) + 1), None)
  }

  /** The update after the encoder's outcome. */
  function FinishUpdate(outcome: EncoderOutcome): Update
  {
    match outcome
    case Rendered(summary) => Update(Some(Completed), Some(summary), None, None, Some(1.0))
    case Throws(message) => FailWith(message.OrElse(RenderFailed))
  }

  /** The updates `processManifest` writes to a stored job, in order. */
  function ProcessUpdates(m: Manifest, uploads: map<string, Upload>, encode: EncoderRequest -> EncoderOutcome,
                          root: string): seq<Update>
  {
    if m.uploadId !in uploads then [StartUpdate(m), FailWith(UploadNotFound)]
    else
      var upload := uploads[m.uploadId];
      if m.options.includeMusic && upload.audio.None? then [StartUpdate(m), FailWith(MissingAudio)]
      else [StartUpdate(m), FinishUpdate(encode(EncoderRequestFor(m, upload, root)))]
  }

  /** The job's manifest once `processManifest` is done with it. */
  function Process(m: Manifest, uploads: map<string, Upload>, encode: EncoderRequest -> EncoderOutcome,
                   root: string, now: string): Manifest
  {
    MergeAll(m, ProcessUpdates(m, uploads, encode, root), now)
  }

  /** How `processManifest` ends for a stored job. */
  function ProcessResult(m: Manifest, uploads: map<string, Upload>, encode: EncoderRequest -> EncoderOutcome,
                         root: string): Processed
  {
    if m.uploadId !in uploads then Returned
    else
      var upload := uploads[m.uploadId];
      if m.options.includeMusic && upload.audio.None? then Returned
      else
        match encode(EncoderRequestFor(m, upload, root))
        case Rendered(_) => Returned
        case Throws(message) => Rethrows(message.OrElse(RenderFailed))
  }

  /** The store once `processManifest(id)` is done: unchanged for an unknown
      job. */
  function ProcessStore(manifests: map<string, Manifest>, id: string, uploads: map<string, Upload>,
                        encode: EncoderRequest -> EncoderOutcome, root: string, now: string): map<string, Manifest>
  {
    if id in manifests then manifests[id := Process(manifests[id], uploads, encode, root, now)] else manifests
  }

  /** What a processed job looks like. It always starts processing with one
      more attempt. A missing upload, or music asked for without an audio
      track, fails it with the matching message. A rendered job is
      completed with the output and progress 1, and keeps any error an
      earlier attempt stored, since its `error: null` does not clear it. A
      throwing encoder fails it with the error's message, or "render
      failed", and the error is rethrown. The job's identity, upload,
      segment and options never change. */
  lemma ProcessOutcome(m: Manifest, uploads: map<string, Upload>, encode: EncoderRequest -> EncoderOutcome,
                       root: string, now: string)
    ensures var updates := ProcessUpdates(m, uploads, encode, root);
            var r := Process(m, uploads, encode, root, now);
            && updates[0].status == Some(Processing)
            && r.attempts == Some(m.attempts.OrElse(0) + 1)
            && r.id == m.id && r.uploadId == m.uploadId && r.segment == m.segment && r.options == m.options
            && r.createdAt == m.createdAt && r.updatedAt == now
            && (m.uploadId !in uploads ==>
                  r.status == Failed && r.error == Some(UploadNotFound) && r.output == m.output
                  && ProcessResult(m, uploads, encode, root) == Returned)
            && (m.uploadId in uploads && m.options.includeMusic && uploads[m.uploadId].audio.None? ==>
                  r.status == Failed && r.error == Some(MissingAudio) && r.output == m.output
                  && ProcessResult(m, uploads, encode, root) == Returned)
            && (m.uploadId in uploads && !(m.options.includeMusic && uploads[m.uploadId].audio.None?) ==>
                  match encode(EncoderRequestFor(m, uploads[m.uploadId], root))
                  case Rendered(summary) =>
                    r.status == Completed && r.output == Some(summary) && r.progress == Some(1.0)
                    && r.error == m.error && ProcessResult(m, uploads, encode, root) == Returned
                  case Throws(message) =>
                    r.status == Failed && r.error == Some(message.OrElse(RenderFailed)) && r.output == m.output
                    && r.progress == m.progress
                    && ProcessResult(m, uploads, encode, root) == Rethrows(message.OrElse(RenderFailed)))
  {
    var updates := ProcessUpdates(m, uploads, encode, root);
    MergeTwo(m, updates[0], updates[1], now);
  }

  /** A job that failed once and then renders on a retry is completed but
      still shows the first attempt's error. */
  lemma RetryKeepsOldError(m: Manifest, uploads: map<string, Upload>, encode: EncoderRequest -> EncoderOutcome,
                           root: string, now: string, summary: FileSummary)
    requires m.status == Failed && m.error.Some?
    requires m.uploadId in uploads && !(m.options.includeMusic && uploads[m.uploadId].audio.None?)
    requires encode(EncoderRequestFor(m, uploads[m.uploadId], root)) == Rendered(summary)
    ensures Process(m, uploads, encode, root, now).status == Completed
    ensures Process(m, uploads, encode, root, now).error == m.error
  {
    ProcessOutcome(m, uploads, encode, root, now);
  }

  /** `processManifest`: a sequence of store updates for the job, given the
      uploads `getUpload` can find, the encoder and the render root. */
  method ProcessManifest(store: ManifestStore, manifestId: string, uploads: map<string, Upload>,
                         encode: EncoderRequest -> EncoderOutcome, root: string, now: string)
    returns (r: Processed)
    requires store.Valid()
    modifies store
    ensures store.Valid()
    ensures store.manifests == ProcessStore(old(store.manifests), manifestId, uploads, encode, root, now)
    ensures manifestId in old(store.manifests) ==>
              r == ProcessResult(old(store.manifests)[manifestId], uploads, encode, root)
    ensures manifestId !in old(store.manifests) ==> r == Returned
  {
    var current := store.Get(manifestId);
    if current.None? {
      return Returned;
    }
    var manifest := current.value;
    ghost var before := store.manifests;
    var written := store.Update(manifest.id, StartUpdate(manifest), now);
    var last: Update;
    if manifest.uploadId !in uploads {
      last := FailWith(UploadNotFound);
      r := Returned;
    } else {
      var upload := uploads[manifest.uploadId];
      if manifest.options.includeMusic && upload.audio.None? {
        last := FailWith(MissingAudio);
        r := Returned;
      } else {
        var outcome := encode(EncoderRequestFor(manifest, upload, root));
        last := FinishUpdate(outcome);
        r := if outcome.Rendered? then Returned else Rethrows(outcome.message.OrElse(RenderFailed));
      }
    }
    written := store.Update(manifest.id, last, now);
    assert ProcessUpdates(manifest, uploads, encode, root) == [StartUpdate(manifest), last];
    MergeTwo(manifest, StartUpdate(manifest), last, now);
  }

  // -----------------------------------------------------------------------
  // The in-memory queue

  /** The store after processing `pending` from its front. */
  function Drain(manifests: map<string, Manifest>, pending: seq<Manifest>, uploads: map<string, Upload>,
                 encode: EncoderRequest -> EncoderOutcome, root: string, now: string): map<string, Manifest>
    decreases |pending|
  {
    if pending == [] then manifests
    else Drain(ProcessStore(manifests, pending[0].id, uploads, encode, root, now), pending[1..], uploads, encode, root, now)
  }

  /** The ids of the queued jobs. */
  function Ids(pending: seq<Manifest>): seq<string>
  {
    seq(|pending|, i requires 0 <= i < |pending| => pending[i].id)
  }

  /** Draining jobs of distinct ids processes each stored one exactly once,
      from the manifest it had before the drain, and leaves every other job
      as it was. */
  lemma {:induction false} DrainProcessesEach(manifests: map<string, Manifest>, pending: seq<Manifest>,
                                              uploads: map<string, Upload>, encode: EncoderRequest -> EncoderOutcome,
                                              root: string, now: string)
    requires forall i, j :: 0 <= i < j < |pending| ==> pending[i].id != pending[j].id
    ensures var after := Drain(manifests, pending, uploads, encode, root, now);
            && after.Keys == manifests.Keys
            && (forall id :: id in manifests && id in Ids(pending) ==>
                  after[id] == Process(manifests[id], uploads, encode, root, now))
            && (forall id :: id in manifests && id !in Ids(pending) ==> after[id] == manifests[id])
    decreases |pending|
  {
    if pending != [] {
      var next := ProcessStore(manifests, pending[0].id, uploads, encode, root, now);
      var rest := pending[1..];
      assert forall i, j :: 0 <= i < j < |rest| ==> rest[i].id != rest[j].id by {
        forall i, j | 0 <= i < j < |rest| ensures rest[i].id != rest[j].id {
          assert rest[i] == pending[i + 1] && rest[j] == pending[j + 1];
        }
      }
      DrainProcessesEach(next, rest, uploads, encode, root, now);
      assert Ids(pending) == [pending[0].id] + Ids(rest);
      assert pending[0].id !in Ids(rest) by {
        forall k | 0 <= k < |Ids(rest)| ensures Ids(rest)[k] != pending[0].id {
          assert Ids(rest)[k] == pending[k + 1].id;
        }
      }
    }
  }

  /** `InMemoryRenderQueue`: the fallback queue when Redis is unavailable.
      The uploads, the encoder and the render root are what the worker
      reads from the rest of the system. */
  class InMemoryRenderQueue {
    var processing: bool
    var queue: seq<Manifest>
    const store: ManifestStore
    const uploads: map<string, Upload>
    const encode: EncoderRequest -> EncoderOutcome
    const root: string

    constructor (store: ManifestStore, uploads: map<string, Upload>, encode: EncoderRequest -> EncoderOutcome, root: string)
      ensures !processing && queue == []
      ensures this.store == store && this.uploads == uploads && this.encode == encode && this.root == root
    {
      processing := false;
      queue := [];
      this.store := store;
      this.uploads := uploads;
      this.encode := encode;
      this.root := root;
    }

    /** `process`: when no drain is running, take jobs from the front of
      the queue and process each, swallowing its error, until the queue is
      empty. A drain already running makes it return at once. */
    method ProcessQueue(now: string)
      requires store.Valid()
      modifies this, store
      ensures store.Valid()
      ensures old(processing) ==> processing && queue == old(queue) && store.manifests == old(store.manifests)
      ensures !old(processing) ==>
                !processing && queue == []
                && store.manifests == Drain(old(store.manifests), old(queue), uploads, encode, root, now)
    {
      if processing {
        return;
      }
      processing := true;
      while |queue| > 0
        invariant store.Valid() && processing
        invariant Drain(store.manifests, queue, uploads, encode, root, now)
                  == Drain(old(store.manifests), old(queue), uploads, encode, root, now)
        decreases |queue|
      {
        var manifest := queue[0];
        queue := queue[1..];
        var outcome := ProcessManifest(store, manifest.id, uploads, encode, root, now);
      }
      processing := false;
    }

    /** `enqueue`: create the job's manifest, push it and start a drain. */
    method Enqueue(id: string, uploadId: string, segment: Segment, options: Options, now: string)
      returns (m: Manifest)
      requires store.Valid()
      modifies this, store
      ensures store.Valid()
      ensures m == NewManifest(id, uploadId, segment, options, now)
      ensures old(processing) ==>
                processing && queue == old(queue) + [m] && store.manifests == old(store.manifests)[id := m]
      ensures !old(processing) ==>
                !processing && queue == []
                && store.manifests == Drain(old(store.manifests)[id := m], old(queue) + [m], uploads, encode, root, now)
    {
      m := store.Create(id, uploadId, segment, options, now);
      queue := queue + [m];
      ProcessQueue(now);
    }
  }

  // -----------------------------------------------------------------------
  // getRenderJob

  /** The public view of a stored output: no path, and a download URL. */
  datatype PublicOutput = PublicOutput(
    originalName: string, checksum: string, mimeType: string, size: int, downloadUrl: string)

  /** `PublicRenderJob`. */
  datatype PublicJob = PublicJob(
    id: string, uploadId: string, createdAt: string, updatedAt: string, status: Status,
    segment: Segment, options: Options, output: Option<PublicOutput>, error: Option<string>,
    attempts: Option<int>, progress: real)

  /** `getRenderJob`: null for an unknown job. */
  function GetRenderJob(manifests: map<string, Manifest>, id: string): Option<PublicJob>
  {
    if id !in manifests then None
    else
      var m := manifests[id];
      var output :=
        match m.output
        case None => None
        case Some(o) => Some(PublicOutput(o.originalName, o.checksum, o.mimeType, o.size, DownloadUrl(id)));
      Some(PublicJob(m.id, m.uploadId, m.createdAt, m.updatedAt, m.status, m.segment, m.options,
                     output, m.error, m.attempts, m.progress.OrElse(0.0)))
  }

  /** The view exists exactly for stored jobs and copies the job's id,
      upload, timestamps, status, segment, options, error and attempts. It
      has an output exactly when the job does, with the file's name,
      checksum, type and size and the job's download URL, which the file
      route maps back to the job; a missing progress reads 0 and a present
      one is copied. */
  lemma PublicJobFacts(manifests: map<string, Manifest>, id: string)
    ensures GetRenderJob(manifests, id).Some? <==> id in manifests
    ensures id in manifests ==>
              var m := manifests[id];
              var j := GetRenderJob(manifests, id).value;
              && j.id == m.id && j.uploadId == m.uploadId
              && j.createdAt == m.createdAt && j.updatedAt == m.updatedAt
              && j.segment == m.segment && j.options == m.options
              && j.status == m.status && j.error == m.error && j.attempts == m.attempts
              && (j.output.Some? <==> m.output.Some?)
              && (m.output.Some? ==>
                    var o := m.output.value;
                    && j.output.value.originalName == o.originalName && j.output.value.checksum == o.checksum
                    && j.output.value.mimeType == o.mimeType && j.output.value.size == o.size
                    && j.output.value.downloadUrl == DownloadUrl(id)
                    && (id != [] && '/' !in id ==> RouteId(j.output.value.downloadUrl) == Some(id)))
              && (m.progress.None? ==> j.progress == 0.0)
              && (m.progress.Some? ==> j.progress == m.progress.value)
  {
    if id in manifests && manifests[id].output.Some? {
      DownloadUrlRoundTrip(id, DownloadUrl(id));
    }
  }

  /** A job just enqueued behind a running drain reads queued, with no
      output, no error and progress 0. */
  lemma NewJobView(manifests: map<string, Manifest>, id: string, uploadId: string, segment: Segment,
                   options: Options, now: string)
    ensures var j := GetRenderJob(manifests[id := NewManifest(id, uploadId, segment, options, now)], id);
            && j.Some? && j.value.status == Queued && j.value.output == None
            && j.value.error == None && j.value.progress == 0.0
  {
  }
}
