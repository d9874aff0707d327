# Onion rig capture records and classifier pipeline, in Dafny

This project models the two stateful parts of the cooking rig's controller. Each capture goes through both.

- **Capture records** (`Data` in data.py). One capture stores three files: camera image, thermal image and meta record. Each file has a deterministic path built from the session name, the zero-padded measurement id, the time stamp, the artifact type and the active label. The meta record holds the session and capture fields, the thermal and control snapshots copied verbatim, the public URLs of the two images, and the interval since the previous record. That interval is measured from a baseline the recorder keeps and moves on every call. A fixed catalogue of live labels is also served.
- **Classifier pipeline** (`Classify` in classification.py). A registry of named models is loaded from a fixed catalogue of three. Image paths wait in a FIFO queue. A single worker dequeues each path and runs every loaded model on it. It then replaces the published result `data` with that job's output as a whole. A model with no answer is skipped. A top class with no label raises an uncaught `KeyError`, which ends the worker. Quitting sets a flag, and the worker exits once it finds the queue empty.

Files:

- `wrappers.dfy`: `Option` and `Result`.
- `text.dfy` (module `Text`): Python's `str()` of an int and `str.zfill`, with their round trip, and the facts about `_`-separated names.
- `telemetry.dfy` (module `Telemetry`): file paths, public URLs, interval rounding, the meta record, the label catalogue, and class `Data`.
- `classification.dfy` (module `Classification`): registry loading, per-job aggregation, draining the queue, and class `Classify`.

Outside inputs are parameters:

- Time is an `Instant`: microseconds plus the text `strftime` gives for it.
- Inference is a function `infer(modelFile, image)` that returns the ranked candidates or `None`.
- The models folder is a `Files` value: the label files with their contents, and the model files present.
- `PATH`, the directory of data.py, is the recorder's `root`.

Where the code's behaviour differs from what its names and comments suggest, the model follows the code:

- `_get_public_path` computes the local path with the root removed, then discards it. The URL is therefore the bucket URL, `/` and the whole local path (data.py:62, 66).
- The first interval is measured from the moment the recorder was constructed (data.py:21). No special first-record value is used.
- A top index with no label is not skipped. Label files are read as dictionaries, and only `TypeError` and `IndexError` are caught, so the `KeyError` ends the worker thread (classification.py:51-60). The model records this as `Worker.Crashed`; `data` keeps the previous result and the remaining jobs stay queued.

## Model

| member | source | states |
|---|---|---|
| Text.NatToString | data.py:32 | `str()` of a non-negative int is a non-empty string of decimal digits, longer than one digit exactly when the number is at least 10, and never starting with `0` when longer; with `NatToStringRoundTrip` this fixes the text exactly |
| Text.IntToString | data.py:79 | `str()` of an int starts with `-` exactly when it is negative, every other character is a digit, and the digits have no leading zero |
| Text.NatToStringRoundTrip | data.py:79 | reading back the digits of `str(n)` gives `n` |
| Text.ZFill | data.py:32 | `zfill(width)` returns a string `max(len, width)` long, unchanged when already that long, and adds only `'0'` characters |
| Text.LeadingZeros | data.py:32 | the zeros `zfill` adds do not change the numeral's value |
| Text.ZFillRoundTrip | data.py:32 | the zero-padded `str(id)`, negative ids included, reads back as `id` at any width |
| Text.ZFillInjective | data.py:32 | distinct ids give distinct padded numerals |
| Text.PaddedHasNoSeparator | data.py:32 | a padded id never contains the `_` that separates file-name fields |
| Text.SeparatedFieldsDiffer | data.py:32 | names that differ in a `_`-free field closed by `_` are different names |
| Telemetry.ArtifactDir | data.py:30-40 | defines one artifact type's directory, `<root>/logs/<session>/<type>/<label>`; its properties are the contracts of `ArtifactDirs` and `KindsNeverCollide` |
| Telemetry.FileName | data.py:32-42 | defines the file name `<session>_<zfill5(id)>_<stamp>_<type>_<label>` with `.jpg` for images and `.json` for the meta record; stated by `ExampleCameraFileName`, `PaddedIdDecodes` and `MeasurementsNeverCollide` |
| Telemetry.ArtifactPath | data.py:33-43 | defines a stored path as directory, `/` and file name; stated by `KindsNeverCollide` and `MeasurementsNeverCollide` |
| Telemetry.ArtifactDirs | data.py:30-41 | the directories made for a capture include `<root>/logs/<session>/<type>/<label>` for camera, thermal and meta |
| Telemetry.Data.GenerateFilepaths | data.py:23-45 | the result has exactly the keys camera, thermal and meta. Each path is `<dir>/<session>_<zfill5(id)>_<stamp>_<type>_<label>.<ext>`. The three directories are added to those already made |
| Telemetry.ExampleCameraFileName | data.py:32-33 | measurement 3 of session `sess1` labelled `Browning` gets the camera file `sess1_00003_<stamp>_camera_Browning.jpg` |
| Telemetry.PaddedIdWidth | data.py:32 | the id field is at least five characters, zero-padded only when shorter; longer ids are kept whole |
| Telemetry.PaddedIdDecodes | data.py:37 | the id field of a file name reads back as the measurement id |
| Telemetry.KindsNeverCollide | data.py:30-43 | the camera, thermal and meta paths of one capture are pairwise different |
| Telemetry.MeasurementsNeverCollide | data.py:42 | two measurement ids of one session never get the same path, even with the same time stamp |
| Telemetry.FilepathsIdempotent | data.py:31-41 | asking twice for one capture's paths gives the same paths, and every directory exists after the call |
| Telemetry.PublicPath | data.py:59-68 | a missing or empty path has no URL; otherwise the URL is the bucket URL, `/` and the local path, with nothing removed |
| Telemetry.PublicPathRoundTrip | data.py:61-66 | stripping the bucket prefix from a URL gives back the full local path, root included |
| Telemetry.RoundTenths | data.py:70 | the interval in tenths is within half a tenth of the exact difference, and even on a tie |
| Telemetry.IntervalValue | data.py:70-82 | defines the `interval` attribute as the rounded tenths over ten, in seconds; stated by `RoundTenths` and `ComposedInterval` |
| Telemetry.RoundTenthsUnique | data.py:70 | only one integer is within half a tenth and even on a tie, so the rounding is fully determined |
| Telemetry.FirstMissing | data.py:88-101 | the lookups raise `KeyError` on the first key in order that is missing, and on none exactly when all are present |
| Telemetry.Copied | data.py:88-101 | the snapshot fields land in the record under their own names with their values unchanged |
| Telemetry.KeyListsDisjoint | data.py:81-101 | no attribute name is both the capture's own and a snapshot's, or in both snapshots |
| Telemetry.RecordId | data.py:79 | defines the record id `<session>_<str(id)>_<stamp>`; stated by `RecordOwnFields` and `RecordIdsDistinct` |
| Telemetry.OwnAttributes | data.py:81-87 | defines the seven attributes taken from the capture itself; stated by `OwnAttributeValues` |
| Telemetry.Record | data.py:77-102 | defines the record of a capture whose lookups all succeed: type, id and the own and copied attributes; stated by `RecordAttributes` and `RecordOwnFields` |
| Telemetry.Compose | data.py:74-116 | the record is built exactly when the camera, thermal and meta paths and every thermal and control field are present and the meta path is not `None`. Otherwise a `KeyError` names a missing key, or a `TypeError` names the `None` meta path; a built record is the capture's `Record` for the camera and thermal paths it looked up |
| Telemetry.Lookups | data.py:74-115 | defines the lookups in program order: camera, thermal, the 2 thermal fields, the 12 control fields, then meta; stated by `ComposeFailsAtFirst` |
| Telemetry.ComposeFailsAtFirst | data.py:74-115 | a `KeyError` names the first lookup in program order that fails, and every lookup before it succeeded |
| Telemetry.RecordAttributes | data.py:80-102 | the attribute names are exactly the 21 names the portal reads, and every thermal and control field is copied verbatim |
| Telemetry.RecordOwnFields | data.py:77-87 | the record's type is `meta` and its id is `<session>_<str(id)>_<stamp>`, id unpadded; no snapshot field overwrites the capture's own attributes |
| Telemetry.OwnAttributeValues | data.py:81-87 | session name, label, measurement id and time stamp are stored as given, the interval is the rounded difference, and the two file attributes are public URLs |
| Telemetry.ComposedInterval | data.py:70-82 | a record's `interval` is `round(timer - baseline, 1)` in seconds |
| Telemetry.CapturePaths | data.py:28-45 | the paths `generate_filepaths` returns hold exactly the camera, thermal and meta keys |
| Telemetry.ComposedLinks | data.py:74-87 | a record composed from present, non-empty camera and thermal paths is built, and links both images by their public URLs |
| Telemetry.CaptureComposes | data.py:53-87 | fed the paths of its own capture, `generate_meta` finds every path it looks up, and the record links the capture's own camera and thermal files |
| Telemetry.RecordIdsDistinct | data.py:79 | two measurement ids of one session with one time stamp never share a record id |
| Telemetry.Data.constructor | data.py:16-21 | a new recorder's baseline is the moment it is made, and no directory is made |
| Telemetry.Data.GenerateMeta | data.py:47-118 | the baseline becomes `timer` before any lookup, so a `KeyError` still moves it; the result is the record composed against the previous baseline |
| Telemetry.SuccessiveIntervals | data.py:70-71 | the second record measures its interval from the first record's timer |
| Telemetry.CaptureRecord | data.py:23-118 | making a capture's paths and then its record from them always builds the record and moves the baseline; the record links the capture's own camera image |
| Telemetry.Scale | data.py:126-138 | each label scale is keyed by the decimal text of each label's index |
| Telemetry.GenerateLabels | data.py:120-142 | the catalogue is a `labels` object holding the Onion scale 0-4 and the Water scale 0-3 |
| Classification.Catalogue | classification.py:72-79 | defines the three loadable models, pasta, sauce and pan_on_off, each with `models/<name>.txt` labels and a `models/<name>.tflite` model; stated by `LoadWellFormed` and `LoadEntries` |
| Classification.LoadOne | classification.py:82-92 | defines one turn of the load loop: a loaded name is skipped, an uncatalogued one raises `KeyError`, a missing file raises `FileNotFoundError`, and otherwise the model is stored and appended to the load order; stated by the load lemmas below |
| Classification.Load | classification.py:81-92 | defines `load_classifiers`: each name in turn, and the first error stops the loop keeping what was loaded; stated by `LoadGrows`, `LoadWellFormed`, `LoadEntries`, `LoadIdempotent`, `LoadSucceeds` and `LoadFails` |
| Classification.LoadGrows | classification.py:81-88 | a load never removes or changes a loaded model and keeps the load order |
| Classification.LoadWellFormed | classification.py:72-88 | loaded names stay a subset of the three catalogued names, each loaded once with its catalogued model file |
| Classification.LoadEntries | classification.py:84-88 | every model a load adds holds the contents of its catalogued label file and its catalogued model file |
| Classification.LoadIdempotent | classification.py:81-82 | loading the same names again leaves the registry unchanged and ends the same way |
| Classification.LoadSucceeds | classification.py:81-92 | a load raises nothing exactly when every name is loaded already or is catalogued with its files present; then exactly those names are added |
| Classification.LoadFails | classification.py:84-92 | a failed load names the first name it could not load: `KeyError` when uncatalogued, `FileNotFoundError` when a file is missing; the names before it stay loaded; the raise ends the loop, so the loaded names are exactly the earlier ones plus those before the failing name |
| Classification.Classify.LoadClassifiers | classification.py:70-92 | the loop leaves the registry and error that the load specification gives |
| Classification.ClassifyWith | classification.py:45-60 | defines one model's turn in a job: no answer (`TypeError`) or an empty one (`IndexError`) adds nothing, a top index with no label raises `KeyError`, and otherwise the model's entry is set; stated by `AggregateEntries` and `AggregateRaises` |
| Classification.Aggregate | classification.py:39-60 | defines a job's outcome after the given models ran in order, stopping at the first `KeyError`; stated by `UnmappedPersists`, `AggregateEntries` and `AggregateRaises` |
| Classification.UnmappedPersists | classification.py:51-60 | once a model's `KeyError` escapes, the models after it do not run |
| Classification.AggregateEntries | classification.py:39-60 | a job's output has an entry exactly for each model that answered, holding `labels[top index]` and the top score; no other key appears |
| Classification.AggregateRaises | classification.py:51-60 | a job raises exactly when some loaded model's top index has no label; the error names that model and index |
| Classification.RunJob | classification.py:39-61 | the loop over the loaded models builds a fresh output, in load order, as the aggregation specification gives |
| Classification.Job | classification.py:37-61 | defines one job: every loaded model in load order on a fresh output; stated through `Aggregate`'s lemmas and by `RunJob` |
| Classification.Drain | classification.py:33-68 | defines the worker run to its end with the quit flag set: jobs in queue order, each replacing `data`, until the queue is empty or a job raises; stated by `DrainCompletes` and `DrainCrashes` |
| Classification.DrainCompletes | classification.py:33-68 | with the quit flag set, the worker always ends exited or crashed; it exits exactly when no job raises; then every queued job was processed and `data` is the last job's output alone |
| Classification.DrainCrashes | classification.py:33-68 | when a job raises, every earlier job ran, `data` is the output of the job just before, and later jobs stay queued |
| Classification.Classify.constructor | classification.py:17-25 | a new classifier has no model, an empty queue, no result and no thread |
| Classification.Classify.Launch | classification.py:102-105 | launching starts the worker polling |
| Classification.Classify.Start | classification.py:94-96 | `start` appends the path at the back of the queue |
| Classification.Classify.Step | classification.py:33-68 | one loop turn dequeues the head, and its output replaces `data` whole or its `KeyError` ends the thread; on an empty queue the thread exits only when the quit flag is set |
| Classification.Classify.Quit | classification.py:107-110 | after `quit`, the state is the one the drain specification gives. When the thread exits, the queue is empty and the dequeued paths are the earlier ones followed by all the queued ones, in order |
| Classification.PanOnScenario | classification.py:36-62 | loading `pan_on_off`, queueing one frame whose top class is 1 (`on`) and quitting publishes `{"pan_on_off": {"label": "on", "confidence": score}}` |

## Left out

- Threads, `Event`, the 0.1 s `Queue.get` timeout, `task_done` and `join` (classification.py:23-24, 36, 63, 98-110). These are concurrency machinery. The worker is a sequential `Step`, and `Quit` runs it until it stops. `join`, which waits for `task_done` accounting, is not modelled.
- Classification.Classify.Launch: in the source, a second `launch` starts a second consumer thread; the model has one worker and leaves its state unchanged.
- The EdgeTPU engine, `read_label_file` and `PIL.Image.open` are foreign calls. The engine's answers are the parameter `infer`. Label files are `Files` contents. An image path that cannot be opened would kill the worker; this is not modelled.
- Classification.LoadFails: a missing model file is taken to raise `FileNotFoundError`, as a missing label file does. The engine's real exception type for a missing model file is not visible here.
- The constructor's call `load_classifiers("pasta", "sauce", "pan_on_off")` (classification.py:27) passes three arguments to a one-argument method and raises `TypeError`. It is not reproduced: a new `Classify` has an empty registry.
- `makedirs`, the meta-file write and the `Cloud()` uploader (data.py:2, 10, 31, 36, 41, 115-116) are filesystem and network I/O. Made directories are a ghost set. A `None` meta path is modelled as the `TypeError` that `open` raises. Other write failures are not modelled, for example an empty or unwritable path.
- `datetime.now()` and `strftime` are not modelled. An `Instant` carries its microseconds and its formatted text.
- Telemetry.RoundTenths: rounds the exact microsecond difference half to even. Python rounds the binary float of `total_seconds()`, which can land on the other side of a tie (0.35 s, for example).
- Classification.Candidate: scores are carried as the text `str()` gives for them. Float formatting is not modelled.
- The record's JSON key order and serialisation are not modelled. Attributes are a map.
- Thermal and control snapshot values are opaque JSON values, copied as they are.
- The fields `camera_filepath`, `thermal_filepath`, `thermal_history_filepath` and `meta_filepath` of `Data` (data.py:17-20) are set to `None` by `__init__` and never read, so they are not modelled.
- API.py (the HTTP router) and config.py (config file read and write) are outside the modelled core.
