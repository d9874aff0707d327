/**
 * The image classifier of the rig (class `Classify` of classification.py):
 * a registry of named models loaded from a fixed catalogue, a FIFO queue of
 * image paths, and a single worker that runs every loaded model on each
 * image and publishes the latest aggregated result in `data`.
 *
 * Inference is a parameter: `infer(modelFile, image)` is what the engine
 * built from `modelFile` returns for `image` with `top_k=1` — a ranked list
 * of candidates, or `None`.
 */
module Classification {
  import opened Wrappers

  /** One ranked answer of a model: class index and score (as `str` renders the score). */
  datatype Candidate = Candidate(index: int, score: string)

  type Inference = (string, string) -> Option<seq<Candidate>>

  /** A loaded model: its label file read as a dictionary, and its model file. */
  datatype Classifier = Classifier(labels: map<int, string>, modelFile: string)

  /** `self.classifiers`: the loaded models by name, and the order they were loaded in (the dict's order). */
  datatype Registry = Registry(loaded: map<string, Classifier>, order: seq<string>)

  /** A catalogue entry: where a model's label file and model file live. */
  datatype Artifacts = Artifacts(labelFile: string, modelFile: string)

  /** The files in the models folder: label files with their contents, and model files. */
  datatype Files = Files(labelFiles: map<string, map<int, string>>, modelFiles: set<string>)

  /** `KeyError("Model name not found in database")` and `FileNotFoundError(...)`. */
  datatype LoadError = UnknownModel(name: string) | ArtifactMissing(name: string)

  /** The registry after a load, and the error that ended it early, if any. */
  datatype LoadOutcome = LoadOutcome(registry: Registry, error: Option<LoadError>)

  /** One model's entry in a job's output: `{"label": ..., "confidence": ...}`. */
  datatype Entry = Entry(labelText: string, confidence: string)

  /**
   * The result of one job: the output dictionary, or the `KeyError` raised
   * when a model's top index has no label.
   */
  datatype JobOutcome = Output(entries: map<string, Entry>) | Unmapped(model: string, index: int)

  /** The worker thread: not yet launched, polling the queue, finished, or dead of an uncaught `KeyError`. */
  datatype Worker = NotLaunched | Polling | Exited | Crashed(model: string, index: int)

  /** Where running the worker with the quit flag set ends: the data, the thread, the unprocessed jobs. */
  datatype Drained = Drained(data: Option<map<string, Entry>>, worker: Worker, rest: seq<string>)

  // ---------------------------------------------------------------------------
  // Registry
  // ---------------------------------------------------------------------------

  /** `available_classifiers`: the only models that can be loaded. */
  function Catalogue(): map<string, Artifacts> {
    map[
      "pasta" := Artifacts("models/pasta.txt", "models/pasta.tflite"),
      "sauce" := Artifacts("models/sauce.txt", "models/sauce.tflite"),
      "pan_on_off" := Artifacts("models/pan_on_off.txt", "models/pan_on_off.tflite")]
  }

  /** Every loaded name comes from the catalogue, once, with its catalogued model file. */
  ghost predicate WellFormed(reg: Registry) {
    && (forall i, j :: 0 <= i < j < |reg.order| ==> reg.order[i] != reg.order[j])
    && (forall n :: n in reg.loaded <==> n in reg.order)
    && (forall n :: n in reg.loaded ==> n in Catalogue() && reg.loaded[n].modelFile == Catalogue()[n].modelFile)
  }

  /** The name is catalogued and both of its files are present. */
  predicate Available(name: string, files: Files) {
    name in Catalogue() && Catalogue()[name].labelFile in files.labelFiles && Catalogue()[name].modelFile in files.modelFiles
  }

  /** One turn of the `load_classifiers` loop. */
  function LoadOne(reg: Registry, name: string, files: Files): Result<Registry, LoadError> {
    if name in reg.loaded then Success(reg)
    else if name !in Catalogue() then Failure(UnknownModel(name))
    else
      var a := Catalogue()[name];
      if a.labelFile !in files.labelFiles || a.modelFile !in files.modelFiles then Failure(ArtifactMissing(name))
      else Success(Registry(reg.loaded[name := Classifier(files.labelFiles[a.labelFile], a.modelFile)], reg.order + [name]))
  }

  /** `load_classifiers(names)`: load each name in turn; the first error stops the loop, keeping what was loaded. */
  function Load(reg: Registry, names: seq<string>, files: Files): LoadOutcome
    decreases |names|
  {
    if names == [] then LoadOutcome(reg, None)
    else match LoadOne(reg, names[0], files)
      case Failure(e) => LoadOutcome(reg, Some(e))
      case Success(next) => Load(next, names[1..], files)
  }

  /** The registry only grows: every loaded model stays, unchanged, and keeps its place. */
  lemma {:induction false} LoadGrows(reg: Registry, names: seq<string>, files: Files)
    ensures var out := Load(reg, names, files).registry;
      && (forall n :: n in reg.loaded ==> n in out.loaded && out.loaded[n] == reg.loaded[n])
      && reg.order <= out.order
    decreases |names|
  {
    if names != [] {
      match LoadOne(reg, names[0], files)
      case Failure(_) =>
      case Success(next) =>
        LoadGrows(next, names[1..], files);
    }
  }

  /**
   * Every model a load adds holds the contents of its catalogued label
   * file and its catalogued model file.
   */
  lemma {:induction false} LoadEntries(reg: Registry, names: seq<string>, files: Files)
    ensures var out := Load(reg, names, files).registry;
      forall n :: n in out.loaded && n !in reg.loaded ==>
        && n in Catalogue() && Catalogue()[n].labelFile in files.labelFiles
        && out.loaded[n] == Classifier(files.labelFiles[Catalogue()[n].labelFile], Catalogue()[n].modelFile)
    decreases |names|
  {
    if names != [] {
      match LoadOne(reg, names[0], files)
      case Failure(_) =>
      case Success(next) =>
        LoadEntries(next, names[1..], files);
        LoadGrows(next, names[1..], files);
    }
  }

  /** Loading keeps the registry's keys within the catalogue, each loaded once. */
  lemma {:induction false} LoadWellFormed(reg: Registry, names: seq<string>, files: Files)
    requires WellFormed(reg)
    ensures WellFormed(Load(reg, names, files).registry)
    decreases |names|
  {
    if names != [] {
      match LoadOne(reg, names[0], files)
      case Failure(_) =>
      case Success(next) =>
        if names[0] !in reg.loaded {
          assert names[0] !in reg.order;
          assert forall n :: n in next.loaded <==> n in next.order;
        }
        LoadWellFormed(next, names[1..], files);
    }
  }

  /** Loading the same names again changes nothing and ends the same way. */
  lemma {:induction false} LoadIdempotent(reg: Registry, names: seq<string>, files: Files)
    ensures Load(Load(reg, names, files).registry, names, files) == Load(reg, names, files)
    decreases |names|
  {
    if names != [] {
      match LoadOne(reg, names[0], files)
      case Failure(_) =>
      case Success(next) =>
        var out := Load(next, names[1..], files);
        assert names[0] in next.loaded;
        LoadGrows(next, names[1..], files);
        assert LoadOne(out.registry, names[0], files) == Success(out.registry);
        LoadIdempotent(next, names[1..], files);
    }
  }

  /**
   * A load ends without error exactly when every name was already loaded
   * or is catalogued with its files present; then exactly those names are
   * added.
   */
  lemma {:induction false} LoadSucceeds(reg: Registry, names: seq<string>, files: Files)
    ensures var out := Load(reg, names, files);
      out.error.None? <==> forall n :: n in names ==> n in reg.loaded || Available(n, files)
    ensures var out := Load(reg, names, files);
      out.error.None? ==> out.registry.loaded.Keys == reg.loaded.Keys + set n | n in names
    decreases |names|
  {
    if names != [] {
      match LoadOne(reg, names[0], files)
      case Failure(_) =>
      case Success(next) =>
        LoadSucceeds(next, names[1..], files);
        assert next.loaded.Keys == reg.loaded.Keys + {names[0]};
        assert forall n :: n in names <==> n == names[0] || n in names[1..];
    }
  }

  /** The names a sequence holds. */
  function NamesIn(names: seq<string>): set<string> {
    set n | n in names
  }

  /**
   * The load from `reg` ended in `out` with an error at `names[i]`: that
   * name could not be loaded, every name before it is loaded, and no name
   * after it was.
   */
  ghost predicate FailedAt(reg: Registry, names: seq<string>, files: Files, out: LoadOutcome, i: int) {
    && out.error.Some?
    && 0 <= i < |names| && names[i] == out.error.value.name
    && names[i] !in out.registry.loaded && !Available(names[i], files)
    && (out.error.value.UnknownModel? <==> names[i] !in Catalogue())
    && (forall j :: 0 <= j < i ==> names[j] in out.registry.loaded)
    && out.registry.loaded.Keys == reg.loaded.Keys + NamesIn(names[..i])
  }

  /**
   * A failed load names the first name it could not load: unknown to the
   * catalogue (`KeyError`) or with a file missing (`FileNotFoundError`).
   * Every name before it is loaded, and the raise ends the loop, so no
   * name after it is.
   */
  lemma {:induction false} LoadFails(reg: Registry, names: seq<string>, files: Files)
    ensures var out := Load(reg, names, files);
      out.error.Some? ==> exists i :: FailedAt(reg, names, files, out, i)
    decreases |names|
  {
    if names != [] {
      match LoadOne(reg, names[0], files)
      case Failure(_) =>
        assert names[..0] == [];
        assert FailedAt(reg, names, files, Load(reg, names, files), 0);
      case Success(next) =>
        var out := Load(next, names[1..], files);
        LoadFails(next, names[1..], files);
        LoadGrows(next, names[1..], files);
        if out.error.Some? {
          var i :| FailedAt(next, names[1..], files, out, i);
          assert Load(reg, names, files) == out;
          assert names[0] in next.loaded;
          assert next.loaded.Keys == reg.loaded.Keys + {names[0]};
          assert names[..i + 1] == [names[0]] + names[1..][..i];
          assert NamesIn(names[..i + 1]) == {names[0]} + NamesIn(names[1..][..i]);
          assert forall j :: 0 <= j < i + 1 ==> names[j] in out.registry.loaded by {
            forall j | 0 <= j < i + 1
              ensures names[j] in out.registry.loaded
            {
              if j > 0 {
                assert names[j] == names[1..][j - 1];
              }
            }
          }
          assert FailedAt(reg, names, files, out, i + 1);
        }
    }
  }

  // ---------------------------------------------------------------------------
  // Per-job aggregation
  // ---------------------------------------------------------------------------

  /** The model answered with at least one candidate. */
  predicate HasTop(result: Option<seq<Candidate>>) {
    result.Some? && |result.value| > 0
  }

  /**
   * One model's turn in a job: no answer (`TypeError`) or an empty one
   * (`IndexError`) adds nothing; a top index without a label raises
   * `KeyError`; otherwise the model's entry is set.
   */
  function ClassifyWith(output: map<string, Entry>, name: string, c: Classifier, result: Option<seq<Candidate>>): JobOutcome {
    if !HasTop(result) then Output(output)
    else if result.value[0].index !in c.labels then Unmapped(name, result.value[0].index)
    else Output(output[name := Entry(c.labels[result.value[0].index], result.value[0].score)])
  }

  /** The job's outcome after the models `names` have run on `image`, in that order. */
  function Aggregate(reg: Registry, names: seq<string>, image: string, infer: Inference): JobOutcome
    requires forall n :: n in names ==> n in reg.loaded
    decreases |names|
  {
    if names == [] then Output(map[])
    else match Aggregate(reg, names[..|names| - 1], image, infer)
      case Unmapped(m, i) => Unmapped(m, i)
      case Output(out) =>
        var n := names[|names| - 1];
        ClassifyWith(out, n, reg.loaded[n], infer(reg.loaded[n].modelFile, image))
  }

  /** Once a model has raised, the models after it do not run. */
  lemma {:induction false} UnmappedPersists(reg: Registry, names: seq<string>, k: nat, image: string, infer: Inference)
    requires forall n :: n in names ==> n in reg.loaded
    requires k <= |names| && Aggregate(reg, names[..k], image, infer).Unmapped?
    ensures Aggregate(reg, names, image, infer) == Aggregate(reg, names[..k], image, infer)
    decreases |names|
  {
    if k < |names| {
      var init := names[..|names| - 1];
      assert init[..k] == names[..k];
      UnmappedPersists(reg, init, k, image, infer);
    } else {
      assert names[..k] == names;
    }
  }

  /**
   * A job's output has an entry exactly for the models that answered, and
   * each entry is that model's label for its top index and the top score.
   */
  lemma {:induction false} AggregateEntries(reg: Registry, names: seq<string>, image: string, infer: Inference)
    requires forall n :: n in names ==> n in reg.loaded
    ensures var r := Aggregate(reg, names, image, infer);
      r.Output? ==>
        && (forall n :: n in r.entries ==> n in names)
        && forall n :: n in names ==>
          var c := reg.loaded[n];
          var result := infer(c.modelFile, image);
          && (n in r.entries <==> HasTop(result))
          && (n in r.entries ==>
                result.value[0].index in c.labels && r.entries[n] == Entry(c.labels[result.value[0].index], result.value[0].score))
    decreases |names|
  {
    if names != [] {
      var init := names[..|names| - 1];
      AggregateEntries(reg, init, image, infer);
      assert forall n :: n in names ==> n in init || n == names[|names| - 1];
    }
  }

  /** A job raises exactly when some model's top index has no label. */
  lemma {:induction false} AggregateRaises(reg: Registry, names: seq<string>, image: string, infer: Inference)
    requires forall n :: n in names ==> n in reg.loaded
    ensures var r := Aggregate(reg, names, image, infer);
      r.Unmapped? <==>
        (exists n :: n in names && HasTop(infer(reg.loaded[n].modelFile, image))
          && infer(reg.loaded[n].modelFile, image).value[0].index !in reg.loaded[n].labels)
    ensures var r := Aggregate(reg, names, image, infer);
      r.Unmapped? ==>
        (r.model in names && HasTop(infer(reg.loaded[r.model].modelFile, image))
          && r.index == infer(reg.loaded[r.model].modelFile, image).value[0].index
          && r.index !in reg.loaded[r.model].labels)
    decreases |names|
  {
    if names != [] {
      var init := names[..|names| - 1];
      AggregateRaises(reg, init, image, infer);
      assert forall n :: n in names ==> n in init || n == names[|names| - 1];
    }
  }

  /**
   * The body of the worker loop for one image: a fresh `output`, filled by
   * every loaded model in load order.
   */
  method RunJob(reg: Registry, image: string, infer: Inference) returns (outcome: JobOutcome)
    requires WellFormed(reg)
    ensures outcome == Aggregate(reg, reg.order, image, infer)
  {
    var output: map<string, Entry> := map[];
    var i := 0;
    while i < |reg.order|
      invariant 0 <= i <= |reg.order|
      invariant Aggregate(reg, reg.order[..i], image, infer) == Output(output)
    {
      var name := reg.order[i];
      var c := reg.loaded[name];
      var result := infer(c.modelFile, image);
      assert reg.order[..i + 1][..i] == reg.order[..i];
      if result.Some? && |result.value| > 0 {
        var top := result.value[0];
        if top.index !in c.labels {
          outcome := Unmapped(name, top.index);
          UnmappedPersists(reg, reg.order, i + 1, image, infer);
          return;
        }
        output := output[name := Entry(c.labels[top.index], top.score)];
      }
      i := i + 1;
    }
    assert reg.order[..i] == reg.order;
    outcome := Output(output);
  }

  // ---------------------------------------------------------------------------
  // Draining the queue
  // ---------------------------------------------------------------------------

  /** The job outcome of one image under the whole registry. */
  function Job(reg: Registry, image: string, infer: Inference): JobOutcome
    requires WellFormed(reg)
  {
    Aggregate(reg, reg.order, image, infer)
  }

  /**
   * The worker run to its end with the quit flag set: jobs in queue order,
   * each replacing `data` with its output, until the queue is empty (the
   * thread exits) or a job raises (the thread dies, `data` untouched).
   */
  function Drain(reg: Registry, queue: seq<string>, data: Option<map<string, Entry>>, infer: Inference): Drained
    requires WellFormed(reg)
    decreases |queue|
  {
    if queue == [] then Drained(data, Exited, [])
    else match Job(reg, queue[0], infer)
      case Unmapped(m, i) => Drained(data, Crashed(m, i), queue[1..])
      case Output(out) => Drain(reg, queue[1..], Some(out), infer)
  }

  /**
   * The worker exits cleanly exactly when no job raises; then every queued
   * job has been processed and `data` is the last job's output alone.
   */
  lemma {:induction false} DrainCompletes(reg: Registry, queue: seq<string>, data: Option<map<string, Entry>>, infer: Inference)
    requires WellFormed(reg)
    ensures var d := Drain(reg, queue, data, infer);
      d.worker == Exited || d.worker.Crashed?
    ensures var d := Drain(reg, queue, data, infer);
      d.worker == Exited <==> forall j :: j in queue ==> Job(reg, j, infer).Output?
    ensures var d := Drain(reg, queue, data, infer);
      d.worker == Exited ==>
        (d.rest == [] && d.data == if queue == [] then data else Some(Job(reg, queue[|queue| - 1], infer).entries))
    decreases |queue|
  {
    if queue != [] {
      match Job(reg, queue[0], infer)
      case Unmapped(_, _) =>
      case Output(out) =>
        DrainCompletes(reg, queue[1..], Some(out), infer);
        assert forall j :: j in queue <==> j == queue[0] || j in queue[1..];
        if queue[1..] != [] {
          assert queue[1..][|queue[1..]| - 1] == queue[|queue| - 1];
        }
    }
  }

  /** The drain `d` ended at job `k`, which raised: the jobs before it ran, those after it stay queued. */
  ghost predicate CrashedAt(reg: Registry, queue: seq<string>, data: Option<map<string, Entry>>, infer: Inference, d: Drained, k: int)
    requires WellFormed(reg) && d.worker.Crashed?
  {
    && 0 <= k < |queue|
    && Job(reg, queue[k], infer) == Unmapped(d.worker.model, d.worker.index)
    && (forall j :: 0 <= j < k ==> Job(reg, queue[j], infer).Output?)
    && d.rest == queue[k + 1..]
    && d.data == if k == 0 then data else Some(Job(reg, queue[k - 1], infer).entries)
  }

  /**
   * When a job raises, the jobs before it were all processed, `data` is the
   * output of the one just before it, and the jobs after it stay queued.
   */
  lemma {:induction false} DrainCrashes(reg: Registry, queue: seq<string>, data: Option<map<string, Entry>>, infer: Inference)
    requires WellFormed(reg)
    ensures var d := Drain(reg, queue, data, infer);
      d.worker.Crashed? ==> exists k :: CrashedAt(reg, queue, data, infer, d, k)
    decreases |queue|
  {
    if queue != [] {
      match Job(reg, queue[0], infer)
      case Unmapped(m, i) =>
        var d := Drain(reg, queue, data, infer);
        assert CrashedAt(reg, queue, data, infer, d, 0);
      case Output(out) =>
        var d := Drain(reg, queue[1..], Some(out), infer);
        DrainCrashes(reg, queue[1..], Some(out), infer);
        if d.worker.Crashed? {
          var k :| CrashedAt(reg, queue[1..], Some(out), infer, d, k);
          assert queue[1..][k + 1..] == queue[k + 2..];
          assert CrashedAt(reg, queue, data, infer, d, k + 1);
        }
    }
  }

  // ---------------------------------------------------------------------------
  // The classifier object
  // ---------------------------------------------------------------------------

  /**
   * `Classify`: the registry, the job queue, the latest result and the quit
   * flag, with the worker thread's state. Ghost fields record every path
   * submitted, every path dequeued and every output published.
   */
  class Classify {
    var classifiers: Registry
    var queue: seq<string>
    var data: Option<map<string, Entry>>
    var quitSet: bool
    var worker: Worker
    ghost var submitted: seq<string>
    ghost var dequeued: seq<string>
    ghost var completed: seq<map<string, Entry>>

    /**
     * The registry is well formed; jobs leave the queue in the order they
     * were submitted; `data` is the last published output, `None` before
     * the first.
     */
    ghost predicate Valid()
      reads this
    {
      && WellFormed(classifiers)
      && dequeued + queue == submitted
      && data == (if completed == [] then None else Some(completed[|completed| - 1]))
      && |completed| <= |dequeued|
    }

    /** A classifier with no model loaded, an empty queue and no result. */
    constructor ()
      ensures Valid()
      ensures classifiers == Registry(map[], []) && queue == [] && data == None
      ensures !quitSet && worker == NotLaunched && submitted == []
    {
      classifiers := Registry(map[], []);
      queue := [];
      data := None;
      quitSet := false;
      worker := NotLaunched;
      submitted := [];
      dequeued := [];
      completed := [];
    }

    /** `load_classifiers(names)` against the files present in the models folder. */
    method LoadClassifiers(names: seq<string>, files: Files) returns (error: Option<LoadError>)
      requires Valid()
      modifies this`classifiers
      ensures Valid()
      ensures LoadOutcome(classifiers, error) == Load(old(classifiers), names, files)
    {
      var i := 0;
      while i < |names|
        invariant 0 <= i <= |names|
        invariant Load(classifiers, names[i..], files) == Load(old(classifiers), names, files)
        invariant Valid()
      {
        var name := names[i];
        assert names[i..][0] == name && names[i..][1..] == names[i + 1..];
        if name !in classifiers.loaded {
          if name !in Catalogue() {
            return Some(UnknownModel(name));
          }
          var a := Catalogue()[name];
          if a.labelFile !in files.labelFiles || a.modelFile !in files.modelFiles {
            return Some(ArtifactMissing(name));
          }
          ghost var before := classifiers;
          classifiers := Registry(classifiers.loaded[name := Classifier(files.labelFiles[a.labelFile], a.modelFile)],
                                  classifiers.order + [name]);
          assert Load(before, [name], files).registry == classifiers;
          LoadWellFormed(before, [name], files);
        }
        i := i + 1;
      }
      error := None;
    }

    /** `launch`: start the worker thread. */
    method Launch()
      requires Valid()
      modifies this`worker
      ensures Valid()
      ensures worker == if old(worker) == NotLaunched then Polling else old(worker)
    {
      if worker == NotLaunched {
        worker := Polling;
      }
    }

    /** `start(path)`: queue an image for classification. */
    method Start(path: string)
      requires Valid()
      modifies this`queue, this`submitted
      ensures Valid()
      ensures queue == old(queue) + [path] && submitted == old(submitted) + [path]
    {
      queue := queue + [path];
      submitted := submitted + [path];
    }

    /**
     * One turn of the worker loop. A queued image is dequeued and every
     * model runs on it; its output replaces `data` whole, or the `KeyError`
     * it raises ends the thread. With the queue empty, the thread exits if
     * the quit flag is set and otherwise polls again.
     */
    method Step(infer: Inference)
      requires Valid() && worker == Polling
      modifies this`queue, this`data, this`worker, this`dequeued, this`completed
      ensures Valid()
      ensures old(queue) == [] ==>
        && queue == [] && data == old(data) && dequeued == old(dequeued) && completed == old(completed)
        && worker == (if quitSet then Exited else Polling)
      ensures old(queue) != [] ==> queue == old(queue)[1..] && dequeued == old(dequeued) + [old(queue)[0]]
      ensures old(queue) != [] && Job(classifiers, old(queue)[0], infer).Output? ==>
        var out := Job(classifiers, old(queue)[0], infer).entries;
        data == Some(out) && completed == old(completed) + [out] && worker == Polling
      ensures old(queue) != [] && Job(classifiers, old(queue)[0], infer).Unmapped? ==>
        var o := Job(classifiers, old(queue)[0], infer);
        data == old(data) && completed == old(completed) && worker == Crashed(o.model, o.index)
    {
      if queue == [] {
        if quitSet {
          worker := Exited;
        }
        return;
      }
      var image := queue[0];
      var outcome := RunJob(classifiers, image, infer);
      queue := queue[1..];
      dequeued := dequeued + [image];
      if outcome.Output? {
        data := Some(outcome.entries);
        completed := completed + [outcome.entries];
      } else {
        worker := Crashed(outcome.model, outcome.index);
      }
    }

    /**
     * `quit`: set the quit flag and wait for the worker to finish. Every
     * job queued by then is processed unless one raises. The result is
     * false when no thread was ever launched (the source then fails with
     * `AttributeError`).
     */
    method Quit(infer: Inference) returns (joined: bool)
      requires Valid()
      modifies this`quitSet, this`queue, this`data, this`worker, this`dequeued, this`completed
      ensures Valid() && quitSet && joined == (old(worker) != NotLaunched)
      ensures classifiers == old(classifiers) && submitted == old(submitted)
      ensures old(worker) == Polling ==>
        Drained(data, worker, queue) == Drain(classifiers, old(queue), old(data), infer)
      ensures old(worker) != Polling ==> queue == old(queue) && data == old(data) && worker == old(worker)
      ensures old(worker) == Polling && worker == Exited ==> queue == [] && dequeued == old(dequeued) + old(queue)
    {
      quitSet := true;
      joined := worker != NotLaunched;
      if worker != Polling {
        return;
      }
      ghost var target := Drain(classifiers, queue, data, infer);
      DrainCompletes(classifiers, queue, data, infer);
      while worker == Polling
        invariant Valid() && quitSet
        invariant classifiers == old(classifiers) && submitted == old(submitted)
        invariant worker == Polling ==> Drain(classifiers, queue, data, infer) == target
        invariant worker != Polling ==> Drained(data, worker, queue) == target
        decreases |queue|, if worker == Polling then 1 else 0
      {
        Step(infer);
      }
    }
  }

  /**
   * An end-to-end run: load `pan_on_off`, launch, queue one image on which
   * the model's top class is 1 ("on"), quit; the published result is that
   * label with the model's score.
   */
  method PanOnScenario() returns (c: Classify)
    ensures c.data == Some(map["pan_on_off" := Entry("on", "0.87")])
    ensures c.worker == Exited && c.queue == []
  {
    var files := Files(map["models/pan_on_off.txt" := map[0 := "off", 1 := "on"]], {"models/pan_on_off.tflite"});
    var infer: Inference := (model, image) => Some([Candidate(1, "0.87")]);
    c := new Classify();
    var error := c.LoadClassifiers(["pan_on_off"], files);
    c.Launch();
    c.Start("frame.jpg");
    var joined := c.Quit(infer);
    assert c.classifiers.order == ["pan_on_off"];
    assert Job(c.classifiers, "frame.jpg", infer) == Output(map["pan_on_off" := Entry("on", "0.87")]);
  }
}
