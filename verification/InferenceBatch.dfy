/**
 inference/main.py, _process_batch, and the two infer_batch of inference/engine.py: many tiles
 go through the models in one pass, and each tile gets what it would have got alone.

 The networks, their pre- and postprocessing and the image codec are functions of one tile or
 one crop; that running a stack of inputs gives the stack of outputs is what an ONNX session
 promises and is assumed here.
 */
module InferenceBatch {
  import opened Collections
  import opened JobRecords
  import opened Reconstruction
  import opened Dispatch
  import Queue = InferenceQueue

  type Tensor = seq<real>
  type Output = seq<real>

  /** The scale and padding that _letterbox returns. */
  datatype Frame = Frame(scale: real, left: int, top: int)

  datatype Box = Box(x1: real, y1: real, x2: real, y2: real)

  datatype Detection = Detection(
    className: string, confidence: real, box: Box, classifyLabel: Option<string>, classifyConfidence: real)

  datatype Detector = Detector(
    letterbox: Image -> (Tensor, Frame),
    forward: Tensor -> Output,
    postprocess: (Output, Frame) -> seq<Detection>)

  datatype Classifier = Classifier(prepare: Image -> Tensor, forward: Tensor -> Output, top: Output -> (string, real))

  datatype Models = Models(detector: Detector, classifier: Classifier, imdecode: Bytes -> Option<Image>, round4: real -> real)

  /** session.run on a stack of inputs. */
  function SessionRun(forward: Tensor -> Output, batch: seq<Tensor>): (r: seq<Output>)
    ensures |r| == |batch| && forall i :: 0 <= i < |r| ==> r[i] == forward(batch[i])
  {
    seq(|batch|, i requires 0 <= i < |batch| => forward(batch[i]))
  }

  // ---------------------------------------------------------------- one tile, alone

  function DetectionsOf(d: Detector, image: Image): seq<Detection> {
    var (tensor, frame) := d.letterbox(image);
    d.postprocess(d.forward(tensor), frame)
  }

  const UNKNOWN: (string, real) := ("unknown", 0.0)

  function Classify(c: Classifier, crop: Image): (string, real) {
    if IsEmpty(crop) then UNKNOWN else c.top(c.forward(c.prepare(crop)))
  }

  /** int() of a float. */
  function Trunc(v: real): int {
    if v >= 0.0 then v.Floor else -(-v).Floor
  }

  /** It drops the fraction: the result is on the same side of 0, and less than 1 nearer to it. */
  lemma TruncTowardsZero(v: real)
    ensures v >= 0.0 ==> 0.0 <= Trunc(v) as real <= v < Trunc(v) as real + 1.0
    ensures v <= 0.0 ==> Trunc(v) as real - 1.0 < v <= Trunc(v) as real <= 0.0
  {
  }

  /** Where a[lo:hi] of numpy ends in an array of length n: a negative hi counts from the end. */
  function SliceEnd(n: nat, hi: int): (r: nat)
    ensures r <= n
  {
    var e := if hi < 0 then hi + n else hi;
    if e < 0 then 0 else if e > n then n else e
  }

  function AtLeast0(v: int): nat {
    if v < 0 then 0 else v
  }

  /** How many columns (or rows) of n the crop from a to b takes: a is clamped at 0, b only at n. */
  function CropLength(n: nat, a: int, b: int): (r: nat)
    ensures r > 0 ==> AtLeast0(a) + r <= n
  {
    var end := SliceEnd(n, Min(n, b));
    if AtLeast0(a) <= end then end - AtLeast0(a) else 0
  }

  /** The crop of one detected box. */
  function CropBox(image: Image, box: Box): Image
  {
    var x1, y1 := AtLeast0(Trunc(box.x1)), AtLeast0(Trunc(box.y1));
    var width := CropLength(image.width, Trunc(box.x1), Trunc(box.x2));
    var height := CropLength(Height(image), Trunc(box.y1), Trunc(box.y2));
    Raster(width, seq(height, i requires 0 <= i < height => if width == 0 then [] else image.rows[y1 + i][x1..x1 + width]))
  }

  /** Column c of the image is in the crop of the columns a..b. */
  predicate InCrop(n: nat, a: int, b: int, c: int) {
    AtLeast0(a) <= c < SliceEnd(n, Min(n, b))
  }

  lemma CropSide(n: nat, a: int, b: int, c: int)
    ensures 0 <= c - AtLeast0(a) < CropLength(n, a, b) <==> InCrop(n, a, b, c)
  {
  }

  /** The crop holds exactly the image's pixels in those columns and rows. */
  lemma CropPixels(image: Image, box: Box)
    ensures var crop, x1, y1 := CropBox(image, box), AtLeast0(Trunc(box.x1)), AtLeast0(Trunc(box.y1));
            && (forall c :: 0 <= c - x1 < crop.width <==> InCrop(image.width, Trunc(box.x1), Trunc(box.x2), c))
            && (forall r :: 0 <= r - y1 < Height(crop) <==> InCrop(Height(image), Trunc(box.y1), Trunc(box.y2), r))
            && (forall i, j :: 0 <= i < Height(crop) && 0 <= j < crop.width ==>
                  crop.rows[i][j] == image.rows[y1 + i][x1 + j])
  {
    forall c
      ensures 0 <= c - AtLeast0(Trunc(box.x1)) < CropBox(image, box).width
              <==> InCrop(image.width, Trunc(box.x1), Trunc(box.x2), c)
    {
      CropSide(image.width, Trunc(box.x1), Trunc(box.x2), c);
    }
    forall r
      ensures 0 <= r - AtLeast0(Trunc(box.y1)) < Height(CropBox(image, box))
              <==> InCrop(Height(image), Trunc(box.y1), Trunc(box.y2), r)
    {
      CropSide(Height(image), Trunc(box.y1), Trunc(box.y2), r);
    }
  }

  /** The upper end b reaches back into the image from the other side. */
  predicate Wraps(n: nat, a: int, b: int) {
    b < 0 && AtLeast0(a) < n + b
  }

  /**
   The upper ends are not clamped at 0, so a box that ends left of the image (or above it) can
   still yield a crop, taken from the other side.
   */
  lemma CropIsTheVisiblePart(n: nat, a: int, b: int)
    ensures (forall c :: InCrop(n, a, b, c) <==> 0 <= c < n && a <= c < b) <==> !Wraps(n, a, b)
  {
    if Wraps(n, a, b) {
      assert InCrop(n, a, b, AtLeast0(a));
    }
  }

  /** Pixel (c, r) of the image is in the crop of the box. */
  predicate PixelInCrop(image: Image, box: Box, c: int, r: int) {
    && 0 <= c - AtLeast0(Trunc(box.x1)) < CropBox(image, box).width
    && 0 <= r - AtLeast0(Trunc(box.y1)) < Height(CropBox(image, box))
  }

  /** It is in the image and in the box. */
  predicate PixelInBox(image: Image, box: Box, c: int, r: int) {
    && 0 <= c < image.width && Trunc(box.x1) <= c < Trunc(box.x2)
    && 0 <= r < Height(image) && Trunc(box.y1) <= r < Trunc(box.y2)
  }

  /** A side wraps around only when the other side's crop is empty. */
  predicate WrapsAreHidden(image: Image, box: Box) {
    && (Wraps(image.width, Trunc(box.x1), Trunc(box.x2)) ==> Height(CropBox(image, box)) == 0)
    && (Wraps(Height(image), Trunc(box.y1), Trunc(box.y2)) ==> CropBox(image, box).width == 0)
  }

  /**
   Main result.  The crop is the part of the box inside the image exactly when no side wraps
   around, or the other side's crop is empty, so that the wrap-around does not show.
   */
  lemma CropIsTheVisibleBox(image: Image, box: Box)
    ensures (forall c, r :: PixelInCrop(image, box, c, r) <==> PixelInBox(image, box, c, r))
            <==> WrapsAreHidden(image, box)
  {
    var a1, b1, a2, b2 := Trunc(box.x1), Trunc(box.x2), Trunc(box.y1), Trunc(box.y2);
    if Wraps(image.width, a1, b1) || Wraps(Height(image), a2, b2) {
      assert !PixelInBox(image, box, AtLeast0(a1), AtLeast0(a2));
      WrapsShow(image, box);
    } else {
      forall c, r
        ensures PixelInCrop(image, box, c, r) <==> PixelInBox(image, box, c, r)
      {
        CropPixels(image, box);
        CropIsTheVisiblePart(image.width, a1, b1);
        CropIsTheVisiblePart(Height(image), a2, b2);
      }
    }
  }

  /** With a side that wraps around nothing of the box is in the image. */
  lemma WrapsShow(image: Image, box: Box)
    requires Wraps(image.width, Trunc(box.x1), Trunc(box.x2)) || Wraps(Height(image), Trunc(box.y1), Trunc(box.y2))
    ensures forall c, r :: !PixelInBox(image, box, c, r)
    ensures Wraps(image.width, Trunc(box.x1), Trunc(box.x2)) ==> CropBox(image, box).width > 0
    ensures Wraps(Height(image), Trunc(box.y1), Trunc(box.y2)) ==> Height(CropBox(image, box)) > 0
    ensures CropBox(image, box).width > 0 && Height(CropBox(image, box)) > 0 <==>
              PixelInCrop(image, box, AtLeast0(Trunc(box.x1)), AtLeast0(Trunc(box.y1)))
    ensures CropBox(image, box).width == 0 || Height(CropBox(image, box)) == 0 ==>
              forall c, r :: !PixelInCrop(image, box, c, r)
  {
  }

  function Labelled(m: Models, image: Image, d: Detection): Detection {
    var (name, confidence) := Classify(m.classifier, CropBox(image, d.box));
    d.(classifyLabel := Some(name), classifyConfidence := m.round4(confidence))
  }

  /** What is published for a tile, its timings and worker id left out. */
  datatype TileResult = TileResult(
    job: JobId, tile: TileId, detections: seq<Detection>, x: int, y: int, width: int, height: int)

  function LabelAll(m: Models, image: Image, ds: seq<Detection>): (r: seq<Detection>)
    ensures |r| == |ds| && forall i :: 0 <= i < |ds| ==> r[i] == Labelled(m, image, ds[i])
  {
    seq(|ds|, i requires 0 <= i < |ds| => Labelled(m, image, ds[i]))
  }

  /** get_tile and decode_image; None when either raises. */
  function Fetched(m: Models, objects: map<string, Bytes>, task: Task): Option<Image> {
    if task.blobKey in objects then DecodeImage(m.imdecode, objects[task.blobKey]) else None
  }

  function ResultOf(task: Task, detections: seq<Detection>): TileResult {
    TileResult(task.job, task.tile, detections, task.x, task.y, task.width, task.height)
  }

  /** What running one task by itself publishes. */
  function Alone(m: Models, objects: map<string, Bytes>, task: Task): seq<TileResult> {
    match Fetched(m, objects, task)
    case None => []
    case Some(image) => [ResultOf(task, LabelAll(m, image, DetectionsOf(m.detector, image)))]
  }

  /** The first n tasks run one after the other. */
  function OneByOne(m: Models, objects: map<string, Bytes>, tasks: seq<Task>, n: nat): seq<TileResult>
    requires n <= |tasks|
  {
    if n == 0 then [] else OneByOne(m, objects, tasks, n - 1) + Alone(m, objects, tasks[n - 1])
  }

  // ---------------------------------------------------------------- what a result holds

  /** The task's blob is stored and decodes to this image. */
  predicate Decodes(m: Models, objects: map<string, Bytes>, task: Task, image: Image) {
    && task.blobKey in objects && |objects[task.blobKey]| >= 100
    && m.imdecode(objects[task.blobKey]) == Some(image) && image.width > 0 && |image.rows| > 0
  }

  /** r says of the task where it lies, and of each detection in its image what it is, where, and the label of its crop. */
  ghost predicate Reports(m: Models, image: Image, task: Task, r: TileResult) {
    var (tensor, frame) := m.detector.letterbox(image);
    var found := m.detector.postprocess(m.detector.forward(tensor), frame);
    && r.job == task.job && r.tile == task.tile
    && r.x == task.x && r.y == task.y && r.width == task.width && r.height == task.height
    && |r.detections| == |found|
    && forall d :: 0 <= d < |found| ==> ReportsDetection(m, image, found[d], r.detections[d])
  }

  predicate ReportsDetection(m: Models, image: Image, found: Detection, d: Detection) {
    var crop := CropBox(image, found.box);
    var named := if crop.width == 0 || |crop.rows| == 0 then ("unknown", 0.0)
                 else m.classifier.top(m.classifier.forward(m.classifier.prepare(crop)));
    && d.className == found.className && d.box == found.box && d.confidence == found.confidence
    && d.classifyLabel == Some(named.0) && d.classifyConfidence == m.round4(named.1)
  }

  ghost predicate Decodable(m: Models, objects: map<string, Bytes>, task: Task) {
    exists image :: Decodes(m, objects, task, image)
  }

  lemma FetchedExactly(m: Models, objects: map<string, Bytes>, task: Task)
    ensures Fetched(m, objects, task).Some? <==> Decodable(m, objects, task)
    ensures Fetched(m, objects, task).Some? ==> Decodes(m, objects, task, Fetched(m, objects, task).value)
  {
    if Fetched(m, objects, task).Some? {
      assert Decodes(m, objects, task, Fetched(m, objects, task).value);
    }
  }

  /**
   `at` lists the decodable ones among the first n tasks, and rs are their results, in order: the k-th
   carries the k-th such task's job, tile and place, and the detections that the detector finds in
   its image, in order and unchanged, each with the label of its crop.
   */
  ghost predicate ResultsAre(m: Models, objects: map<string, Bytes>, tasks: seq<Task>, n: nat, at: seq<nat>, rs: seq<TileResult>)
    requires n <= |tasks|
  {
    && (forall j, k :: 0 <= j < k < |at| ==> at[j] < at[k])
    && (forall k :: 0 <= k < |at| ==> at[k] < n)
    && (forall i: nat :: i < n ==> (i in at <==> Decodable(m, objects, tasks[i])))
    && |rs| == |at|
    && forall k :: 0 <= k < |at| ==> HasReport(m, objects, tasks[at[k]], rs[k])
  }

  ghost predicate HasReport(m: Models, objects: map<string, Bytes>, task: Task, r: TileResult) {
    exists image :: Decodes(m, objects, task, image) && Reports(m, image, task, r)
  }

  lemma ResultsNext(m: Models, objects: map<string, Bytes>, tasks: seq<Task>, n: nat, at: seq<nat>, rs: seq<TileResult>, r: TileResult)
    requires n < |tasks| && ResultsAre(m, objects, tasks, n, at, rs)
    requires Decodable(m, objects, tasks[n]) && HasReport(m, objects, tasks[n], r)
    ensures ResultsAre(m, objects, tasks, n + 1, at + [n], rs + [r])
  {
    var longer, more := at + [n], rs + [r];
    assert forall i: nat :: i in longer <==> i in at || i == n;
    forall k | 0 <= k < |longer|
      ensures longer[k] < n + 1 && HasReport(m, objects, tasks[longer[k]], more[k])
    {
      assert k < |at| ==> longer[k] == at[k] && more[k] == rs[k];
    }
  }

  lemma ResultsSkip(m: Models, objects: map<string, Bytes>, tasks: seq<Task>, n: nat, at: seq<nat>, rs: seq<TileResult>)
    requires n < |tasks| && ResultsAre(m, objects, tasks, n, at, rs) && !Decodable(m, objects, tasks[n])
    ensures ResultsAre(m, objects, tasks, n + 1, at, rs)
  {
    assert forall i: nat :: i in at ==> i < n;
  }

  /** Main result.  Running the tasks one by one publishes those results and no others. */
  lemma {:induction false} ResultsHold(m: Models, objects: map<string, Bytes>, tasks: seq<Task>, n: nat) returns (at: seq<nat>)
    requires n <= |tasks|
    ensures ResultsAre(m, objects, tasks, n, at, OneByOne(m, objects, tasks, n))
  {
    if n == 0 {
      at := [];
    } else {
      at := ResultsHold(m, objects, tasks, n - 1);
      FetchedExactly(m, objects, tasks[n - 1]);
      var before, alone := OneByOne(m, objects, tasks, n - 1), Alone(m, objects, tasks[n - 1]);
      if Fetched(m, objects, tasks[n - 1]).Some? {
        AloneReports(m, objects, tasks[n - 1]);
        ResultsNext(m, objects, tasks, n - 1, at, before, alone[0]);
        at := at + [n - 1];
        assert before + alone == before + [alone[0]];
      } else {
        ResultsSkip(m, objects, tasks, n - 1, at, before);
        assert before + alone == before;
      }
    }
  }

  lemma AloneReports(m: Models, objects: map<string, Bytes>, task: Task)
    requires Fetched(m, objects, task).Some?
    ensures |Alone(m, objects, task)| == 1
    ensures Reports(m, Fetched(m, objects, task).value, task, Alone(m, objects, task)[0])
  {
    var image := Fetched(m, objects, task).value;
    var found := DetectionsOf(m.detector, image);
    forall d | 0 <= d < |found|
      ensures ReportsDetection(m, image, found[d], LabelAll(m, image, found)[d])
    {
      assert LabelAll(m, image, found)[d] == Labelled(m, image, found[d]);
    }
  }

  // ---------------------------------------------------------------- engines

  class DetectionEngine {
    const model: Detector
    const batchedOk: bool

    constructor (model: Detector, batchedOk: bool)
      ensures this.model == model && this.batchedOk == batchedOk
    {
      this.model, this.batchedOk := model, batchedOk;
    }

    /** One forward pass or one per tile, the detections are those of each image alone; stacking nothing raises. */
    method InferBatch(images: seq<Image>) returns (r: Option<seq<seq<Detection>>>)
      ensures r.None? <==> images == []
      ensures r.Some? ==> |r.value| == |images| && forall i :: 0 <= i < |images| ==> r.value[i] == DetectionsOf(model, images[i])
    {
      var tensors: seq<Tensor>, frames: seq<Frame> := [], [];
      for i := 0 to |images|
        invariant |tensors| == |frames| == i
        invariant forall k :: 0 <= k < i ==> (tensors[k], frames[k]) == model.letterbox(images[k])
      {
        var (tensor, frame) := model.letterbox(images[i]);
        tensors, frames := tensors + [tensor], frames + [frame];
      }
      if images == [] {
        return None;
      }
      var outputs: seq<Output> := [];
      if batchedOk {
        outputs := SessionRun(model.forward, tensors);
      } else {
        for i := 0 to |tensors|
          invariant |outputs| == i && forall k :: 0 <= k < i ==> outputs[k] == model.forward(tensors[k])
        {
          outputs := outputs + [SessionRun(model.forward, [tensors[i]])[0]];
        }
      }
      var detections: seq<seq<Detection>> := [];
      for i := 0 to |images|
        invariant |detections| == i && forall k :: 0 <= k < i ==> detections[k] == DetectionsOf(model, images[k])
      {
        detections := detections + [model.postprocess(outputs[i], frames[i])];
      }
      r := Some(detections);
    }
  }

  class ClassificationEngine {
    const model: Classifier

    constructor (model: Classifier)
      ensures this.model == model
    {
      this.model := model;
    }

    /** enumerate() of the crops that have pixels. */
    method NonEmpty(crops: seq<Image>) returns (valid: seq<nat>)
      ensures Selects(crops, valid, |crops|)
    {
      valid := [];
      for i := 0 to |crops|
        invariant Selects(crops, valid, i)
      {
        if !IsEmpty(crops[i]) {
          SelectsNext(crops, valid, i);
          valid := valid + [i];
        }
      }
    }

    /** Empty crops are left out of the pass, and every other crop gets its own output back. */
    method InferBatch(crops: seq<Image>) returns (results: seq<(string, real)>)
      ensures |results| == |crops|
      ensures forall i :: 0 <= i < |crops| ==> results[i] == Classify(model, crops[i])
    {
      var valid := NonEmpty(crops);
      var batch: seq<Tensor> := [];
      for k := 0 to |valid|
        invariant |batch| == k && forall j :: 0 <= j < k ==> batch[j] == model.prepare(crops[valid[j]])
      {
        batch := batch + [model.prepare(crops[valid[k]])];
      }
      var outputs := SessionRun(model.forward, batch);
      results := seq(|crops|, _ => UNKNOWN);
      for k := 0 to |valid|
        invariant |results| == |crops|
        invariant forall j :: 0 <= j < k ==> results[valid[j]] == Classify(model, crops[valid[j]])
        invariant forall i :: 0 <= i < |crops| && IsEmpty(crops[i]) ==> results[i] == UNKNOWN
      {
        results := results[valid[k] := model.top(outputs[k])];
      }
    }
  }

  /** `valid` are the positions below n of the crops that are not empty, in order. */
  ghost predicate Selects(crops: seq<Image>, valid: seq<nat>, n: nat)
    requires n <= |crops|
  {
    && (forall k :: 0 <= k < |valid| ==> valid[k] < n && !IsEmpty(crops[valid[k]]))
    && (forall j, k :: 0 <= j < k < |valid| ==> valid[j] < valid[k])
    && (forall i :: 0 <= i < n && !IsEmpty(crops[i]) ==> exists k :: 0 <= k < |valid| && valid[k] == i)
  }

  // ---------------------------------------------------------------- the batch

  /** How many of n tasks get their turn at publishing. */
  function Turns(n: nat, raises: Option<nat>): (r: nat)
    ensures r <= n
  {
    if raises.Some? && raises.value < n then raises.value else n
  }

  /** The results topic and what the batch hands back for committing. */
  class InferenceWorker {
    const models: Models
    const detector: DetectionEngine
    const classifier: ClassificationEngine
    var published: seq<TileResult>
    var toCommit: seq<Queue.Item>

    constructor (models: Models, batchedOk: bool)
      ensures this.models == models && Ready() && published == [] && toCommit == []
    {
      this.models := models;
      detector := new DetectionEngine(models.detector, batchedOk);
      classifier := new ClassificationEngine(models.classifier);
      published, toCommit := [], [];
    }

    ghost predicate Ready() {
      detector.model == models.detector && classifier.model == models.classifier
    }

    /**
     _process_batch; stillQueued is what flush() returns, and `raises` is how many tasks had their turn
     at publishing when an exception ended the batch, if one did: 0 when it came from a model.  The
     results published are, in order, those of running the tasks one by one, and nothing is handed
     back for committing unless all of them left.
     */
    method ProcessBatch(objects: map<string, Bytes>, tasks: seq<Task>, msgs: seq<Queue.Item>, stillQueued: nat, raises: Option<nat>)
      requires Ready() && |msgs| == |tasks|
      modifies this`published, this`toCommit
      ensures published == old(published) + OneByOne(models, objects, tasks, Turns(|tasks|, raises))
      ensures toCommit == old(toCommit) + if raises.Some? || stillQueued > 0 then [] else msgs
    {
      var images := FetchAll(objects, tasks);
      var found := DetectAll(images);
      var labelled := LabelDetections(images, found);
      PublishResults(objects, tasks, images, labelled, raises);
      if raises.Some? || stillQueued > 0 {
        return;
      }
      toCommit := toCommit + msgs;
    }

    /** The publishing loop, up to the exception. */
    method PublishResults(ghost objects: map<string, Bytes>, tasks: seq<Task>, images: seq<Option<Image>>,
                          labelled: seq<seq<Detection>>, raises: Option<nat>)
      requires |images| == |labelled| == |tasks|
      requires forall i :: 0 <= i < |tasks| ==> images[i] == Fetched(models, objects, tasks[i])
      requires forall i :: 0 <= i < |tasks| && images[i].Some? ==>
                 labelled[i] == LabelAll(models, images[i].value, DetectionsOf(models.detector, images[i].value))
      modifies this`published
      ensures published == old(published) + OneByOne(models, objects, tasks, Turns(|tasks|, raises))
    {
      for i := 0 to |tasks|
        invariant i <= Turns(|tasks|, raises)
        invariant published == old(published) + OneByOne(models, objects, tasks, i)
      {
        if raises == Some(i) {
          return;
        }
        if images[i].None? {
          continue;
        }
        published := published + [ResultOf(tasks[i], labelled[i])];
      }
    }

    /** The images of the tasks, None where fetching or decoding fails. */
    method FetchAll(objects: map<string, Bytes>, tasks: seq<Task>) returns (images: seq<Option<Image>>)
      ensures |images| == |tasks|
      ensures forall i :: 0 <= i < |tasks| ==> images[i] == Fetched(models, objects, tasks[i])
    {
      images := [];
      for i := 0 to |tasks|
        invariant |images| == i && forall k :: 0 <= k < i ==> images[k] == Fetched(models, objects, tasks[k])
      {
        images := images + [Fetched(models, objects, tasks[i])];
      }
    }

    /** Stage 1: one detection pass over the images that decoded, scattered back to their tasks. */
    method DetectAll(images: seq<Option<Image>>) returns (found: seq<seq<Detection>>)
      requires Ready()
      ensures |found| == |images|
      ensures forall i :: 0 <= i < |images| ==> found[i] == FoundIn(models, images[i])
    {
      var valid: seq<nat>, decoded: seq<Image> := [], [];
      for i := 0 to |images|
        invariant |decoded| == |valid|
        invariant forall k :: 0 <= k < |valid| ==> valid[k] < i && images[valid[k]] == Some(decoded[k])
        invariant forall j, k :: 0 <= j < k < |valid| ==> valid[j] < valid[k]
        invariant forall j :: 0 <= j < i && images[j].Some? ==> exists k :: 0 <= k < |valid| && valid[k] == j
      {
        if images[i].Some? {
          ghost var before := valid;
          valid, decoded := valid + [i], decoded + [images[i].value];
          assert forall k :: 0 <= k < |before| ==> valid[k] == before[k];
          assert valid[|before|] == i;
        }
      }
      found := seq(|images|, _ => []);
      if valid != [] {
        var detections := detector.InferBatch(decoded);
        for k := 0 to |valid|
          invariant |found| == |images|
          invariant forall j :: 0 <= j < k ==> found[valid[j]] == FoundIn(models, images[valid[j]])
          invariant forall i :: 0 <= i < |images| && images[i].None? ==> found[i] == []
        {
          found := found[valid[k] := detections.value[k]];
        }
      }
    }

    /** Stage 2: one classification pass over the crops of all tiles, each label back to its own detection. */
    method LabelDetections(images: seq<Option<Image>>, found: seq<seq<Detection>>) returns (labelled: seq<seq<Detection>>)
      requires Ready() && |found| == |images|
      requires forall i :: 0 <= i < |images| && images[i].None? ==> found[i] == []
      ensures |labelled| == |found|
      ensures forall i :: 0 <= i < |images| && images[i].Some? ==>
                labelled[i] == LabelAll(models, images[i].value, found[i])
    {
      var refs, crops := CollectCrops(images, found);
      labelled := found;
      if crops != [] {
        var classes := classifier.InferBatch(crops);
        for k := 0 to |refs|
          invariant SameShape(found, labelled)
          invariant forall j :: 0 <= j < k ==> DoneAt(models, images, found, labelled, refs[j])
          invariant forall j :: k <= j < |refs| ==> labelled[refs[j].0][refs[j].1] == found[refs[j].0][refs[j].1]
        {
          var (name, confidence) := classes[k];
          labelled := WithLabel(labelled, refs[k], name, models.round4(confidence));
        }
      }
      forall i | 0 <= i < |images| && images[i].Some?
        ensures labelled[i] == LabelAll(models, images[i].value, found[i])
      {
        forall d | 0 <= d < |found[i]|
          ensures labelled[i][d] == Labelled(models, images[i].value, found[i][d])
        {
          assert (i, d) in refs;
        }
      }
    }

    /** The crops of every detection of every tile, and whose each one is. */
    method CollectCrops(images: seq<Option<Image>>, found: seq<seq<Detection>>) returns (refs: seq<(nat, nat)>, crops: seq<Image>)
      requires |found| == |images|
      requires forall i :: 0 <= i < |images| && images[i].None? ==> found[i] == []
      ensures |refs| == |crops| && CropsOf(images, found, refs, crops) && Distinct(refs)
      ensures forall i, d :: 0 <= i < |found| && 0 <= d < |found[i]| ==> (i, d) in refs
    {
      refs, crops := [], [];
      for i := 0 to |found|
        invariant |refs| == |crops| && CropsOf(images, found, refs, crops) && Distinct(refs)
        invariant Lists(found, refs, i, 0)
      {
        for di := 0 to |found[i]|
          invariant |refs| == |crops| && CropsOf(images, found, refs, crops) && Distinct(refs)
          invariant Lists(found, refs, i, di)
        {
          ListsNext(found, refs, i, di);
          crops := crops + [CropBox(images[i].value, found[i][di].box)];
          refs := refs + [(i, di)];
        }
      }
    }
  }

  /** detect_results[i][di]['classify_label'] and ['classify_confidence'] are set. */
  function WithLabel(labelled: seq<seq<Detection>>, at: (nat, nat), name: string, confidence: real): (r: seq<seq<Detection>>)
    requires at.0 < |labelled| && at.1 < |labelled[at.0]|
    ensures SameShape(labelled, r)
    ensures forall i, d :: 0 <= i < |r| && 0 <= d < |r[i]| && (i, d) != at ==> r[i][d] == labelled[i][d]
    ensures r[at.0][at.1] == labelled[at.0][at.1].(classifyLabel := Some(name), classifyConfidence := confidence)
  {
    var (i, di) := at;
    labelled[i := labelled[i][di := labelled[i][di].(classifyLabel := Some(name), classifyConfidence := confidence)]]
  }

  predicate SameShape(found: seq<seq<Detection>>, labelled: seq<seq<Detection>>) {
    |labelled| == |found| && forall i :: 0 <= i < |found| ==> |labelled[i]| == |found[i]|
  }

  lemma SelectsNext(crops: seq<Image>, valid: seq<nat>, n: nat)
    requires n < |crops| && Selects(crops, valid, n) && !IsEmpty(crops[n])
    ensures Selects(crops, valid + [n], n + 1)
  {
    var longer := valid + [n];
    forall i | 0 <= i < n + 1 && !IsEmpty(crops[i])
      ensures exists k :: 0 <= k < |longer| && longer[k] == i
    {
      if i < n {
        var k :| 0 <= k < |valid| && valid[k] == i;
        assert longer[k] == i;
      } else {
        assert longer[|valid|] == n;
      }
    }
  }

  function FoundIn(m: Models, image: Option<Image>): seq<Detection> {
    if image.Some? then DetectionsOf(m.detector, image.value) else []
  }

  /** crops[k] is the crop of the detection that refs[k] names. */
  ghost predicate CropsOf(images: seq<Option<Image>>, found: seq<seq<Detection>>, refs: seq<(nat, nat)>, crops: seq<Image>)
    requires |found| == |images| && |refs| == |crops|
  {
    forall k :: 0 <= k < |refs| ==>
      && refs[k].0 < |found| && refs[k].1 < |found[refs[k].0]| && images[refs[k].0].Some?
      && crops[k] == CropBox(images[refs[k].0].value, found[refs[k].0][refs[k].1].box)
  }

  /** refs names the detections of the first n tiles and the first d of the next. */
  ghost predicate Lists(found: seq<seq<Detection>>, refs: seq<(nat, nat)>, n: nat, d: nat) {
    && (forall k :: 0 <= k < |refs| ==> refs[k].0 < n || (refs[k].0 == n && refs[k].1 < d))
    && (forall i, j :: 0 <= i < |found| && 0 <= j < |found[i]| && (i < n || (i == n && j < d)) ==> (i, j) in refs)
  }

  lemma ListsNext(found: seq<seq<Detection>>, refs: seq<(nat, nat)>, n: nat, d: nat)
    requires Lists(found, refs, n, d)
    ensures Lists(found, refs + [(n, d)], n, d + 1)
    ensures Distinct(refs) ==> Distinct(refs + [(n, d)])
  {
  }

  ghost predicate Distinct(refs: seq<(nat, nat)>) {
    forall j, k :: 0 <= j < k < |refs| ==> refs[j] != refs[k]
  }

  ghost predicate DoneAt(m: Models, images: seq<Option<Image>>, found: seq<seq<Detection>>,
                         labelled: seq<seq<Detection>>, at: (nat, nat))
    requires |labelled| == |found| == |images|
  {
    && at.0 < |found| && at.1 < |found[at.0]| == |labelled[at.0]| && images[at.0].Some?
    && labelled[at.0][at.1] == Labelled(m, images[at.0].value, found[at.0][at.1])
  }

  // ---------------------------------------------------------------- any batching, same results

  function TasksOf(items: seq<Queue.Item>, task: Queue.Item -> Task): (r: seq<Task>)
    ensures |r| == |items|
  {
    seq(|items|, i requires 0 <= i < |items| => task(items[i]))
  }

  /** What processing these batches one after the other publishes; raises[i] ends the i-th early. */
  function PublishedBy(m: Models, objects: map<string, Bytes>, batches: seq<seq<Queue.Item>>, raises: seq<Option<nat>>,
                       task: Queue.Item -> Task): seq<TileResult>
    requires |raises| == |batches|
  {
    if batches == [] then []
    else
      var n := |batches| - 1;
      PublishedBy(m, objects, batches[..n], raises[..n], task)
      + OneByOne(m, objects, TasksOf(batches[n], task), Turns(|batches[n]|, raises[n]))
  }

  /** The tasks that had their turn. */
  function Served(batches: seq<seq<Queue.Item>>, raises: seq<Option<nat>>): seq<Queue.Item>
    requires |raises| == |batches|
  {
    if batches == [] then []
    else
      var n := |batches| - 1;
      Served(batches[..n], raises[..n]) + batches[n][..Turns(|batches[n]|, raises[n])]
  }

  /** a is b without some of its elements. */
  ghost predicate Subsequence<T>(a: seq<T>, b: seq<T>) {
    || a == []
    || (b != [] && (|| Subsequence(a, b[..|b| - 1])
                    || (a[|a| - 1] == b[|b| - 1] && Subsequence(a[..|a| - 1], b[..|b| - 1]))))
  }

  lemma {:induction false} SubsequenceOfLonger<T>(a: seq<T>, b: seq<T>, c: seq<T>)
    requires Subsequence(a, b)
    ensures Subsequence(a, b + c)
  {
    if c == [] {
      assert b + c == b;
    } else {
      SubsequenceOfLonger(a, b, c[..|c| - 1]);
      assert (b + c)[..|b + c| - 1] == b + c[..|c| - 1];
    }
  }

  lemma {:induction false} SubsequenceBoth<T>(a: seq<T>, b: seq<T>, c: seq<T>)
    requires Subsequence(a, b)
    ensures Subsequence(a + c, b + c)
  {
    if c == [] {
      assert a + c == a && b + c == b;
    } else {
      SubsequenceBoth(a, b, c[..|c| - 1]);
      assert (a + c)[..|a + c| - 1] == a + c[..|c| - 1];
      assert (b + c)[..|b + c| - 1] == b + c[..|c| - 1];
    }
  }

  lemma {:induction false} ServedInOrder(batches: seq<seq<Queue.Item>>, raises: seq<Option<nat>>)
    requires |raises| == |batches|
    ensures Subsequence(Served(batches, raises), Queue.Flat(batches))
    ensures (forall i :: 0 <= i < |raises| ==> raises[i].None?) ==> Served(batches, raises) == Queue.Flat(batches)
  {
    if batches != [] {
      var n := |batches| - 1;
      ServedInOrder(batches[..n], raises[..n]);
      SubsequenceNext(Served(batches[..n], raises[..n]), Queue.Flat(batches[..n]), batches[n], Turns(|batches[n]|, raises[n]));
    }
  }

  lemma SubsequenceNext<T>(a: seq<T>, b: seq<T>, batch: seq<T>, k: nat)
    requires Subsequence(a, b) && k <= |batch|
    ensures Subsequence(a + batch[..k], b + batch)
  {
    SubsequenceBoth(a, b, batch[..k]);
    SubsequenceOfLonger(a + batch[..k], b + batch[..k], batch[k..]);
    assert b + batch[..k] + batch[k..] == b + batch;
  }

  lemma {:induction false} OneByOneAppend(m: Models, objects: map<string, Bytes>, before: seq<Task>, after: seq<Task>, n: nat)
    requires n <= |after|
    ensures OneByOne(m, objects, before + after, |before| + n)
            == OneByOne(m, objects, before, |before|) + OneByOne(m, objects, after, n)
  {
    if n == 0 {
      OneByOnePrefix(m, objects, before, after, |before|);
    } else {
      OneByOneAppend(m, objects, before, after, n - 1);
    }
  }

  lemma {:induction false} OneByOnePrefix(m: Models, objects: map<string, Bytes>, before: seq<Task>, after: seq<Task>, n: nat)
    requires n <= |before|
    ensures OneByOne(m, objects, before + after, n) == OneByOne(m, objects, before, n)
  {
    if n > 0 {
      OneByOnePrefix(m, objects, before, after, n - 1);
    }
  }

  /** How the tasks are cut into batches does not show in the results, only which of them had their turn. */
  lemma {:induction false} BatchingIsInvisible(m: Models, objects: map<string, Bytes>, batches: seq<seq<Queue.Item>>,
                                               raises: seq<Option<nat>>, task: Queue.Item -> Task)
    requires |raises| == |batches|
    ensures var served := TasksOf(Served(batches, raises), task);
            PublishedBy(m, objects, batches, raises, task) == OneByOne(m, objects, served, |served|)
  {
    if batches != [] {
      var n := |batches| - 1;
      BatchingIsInvisible(m, objects, batches[..n], raises[..n], task);
      OneMoreBatch(m, objects, Served(batches[..n], raises[..n]), batches[n], Turns(|batches[n]|, raises[n]), task);
    }
  }

  /** Batches that have had their turn, and the first k tasks of the next. */
  lemma OneMoreBatch(m: Models, objects: map<string, Bytes>, served: seq<Queue.Item>, batch: seq<Queue.Item>, k: nat,
                     task: Queue.Item -> Task)
    requires k <= |batch|
    ensures var before, after := TasksOf(served, task), TasksOf(served + batch[..k], task);
            OneByOne(m, objects, after, |after|)
            == OneByOne(m, objects, before, |before|) + OneByOne(m, objects, TasksOf(batch, task), k)
  {
    TasksOfBoth(served, batch[..k], task);
    OneByOneAppend(m, objects, TasksOf(served, task), TasksOf(batch[..k], task), k);
    FirstTasks(m, objects, batch, k, task);
  }

  lemma FirstTasks(m: Models, objects: map<string, Bytes>, batch: seq<Queue.Item>, k: nat, task: Queue.Item -> Task)
    requires k <= |batch|
    ensures OneByOne(m, objects, TasksOf(batch, task), k) == OneByOne(m, objects, TasksOf(batch[..k], task), k)
  {
    assert batch == batch[..k] + batch[k..];
    TasksOfBoth(batch[..k], batch[k..], task);
    OneByOnePrefix(m, objects, TasksOf(batch[..k], task), TasksOf(batch[k..], task), k);
  }

  /**
   Main result.  In every run of the worker, however poller and batcher interleave, wherever the
   batches are cut and whichever of them an exception ends early, the results published so far are
   those of tasks run one by one in order of arrival: of all the oldest arrivals when no batch was
   ended early, and otherwise of those among them that had their turn.
   */
  lemma ResultsFollowArrivals(l: Queue.Limits, actions: seq<Queue.Action>, m: Models, objects: map<string, Bytes>,
                              raises: seq<Option<nat>>, task: Queue.Item -> Task)
    requires Queue.Run(l, actions).Some? && |raises| == |Queue.Run(l, actions).value.batches|
    ensures var s := Queue.Run(l, actions).value;
            var served := Served(s.batches, raises);
            var n := |Queue.Flat(s.batches)|;
            && n <= |s.arrived|
            && PublishedBy(m, objects, s.batches, raises, task) == OneByOne(m, objects, TasksOf(served, task), |served|)
            && Subsequence(served, s.arrived[..n])
            && ((forall i :: 0 <= i < |raises| ==> raises[i].None?) ==> served == s.arrived[..n])
  {
    Queue.BatchesAreFifo(l, actions);
    var s := Queue.Run(l, actions).value;
    var done, rest := Queue.Flat(s.batches), s.batcher.batch + s.core.pending;
    assert (done + rest)[..|done|] == done;
    BatchingIsInvisible(m, objects, s.batches, raises, task);
    ServedInOrder(s.batches, raises);
  }

  lemma TasksOfBoth(a: seq<Queue.Item>, b: seq<Queue.Item>, task: Queue.Item -> Task)
    ensures TasksOf(a + b, task) == TasksOf(a, task) + TasksOf(b, task)
  {
  }
}
