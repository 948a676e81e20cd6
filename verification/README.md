# essentials-data-science, modelled in Dafny

This project models the logic of five files of an educational data-science repository.

- **Student management system, back end** (`main.py`). A module-level list of student records keyed by `id`. `POST /students/` appends a record and refuses a duplicate id with HTTP 400. `GET /students/{id}` returns the first record with that id, or 404. `GET /students/` returns the whole list. `GET /statistics/` returns the count and the mean grade and age, all zero on an empty list.
- **Student management system, front end** (`frontend.py`). A session-held list of its own, seeded with the same two records (it never reads the back end's list), and an add form. The form reports a duplicate id before it checks for an empty name. The front end also searches by id and by a case-insensitive name substring. Its statistics page shows the count, the two means and the three best records by grade.
- **Transformer walkthrough** (`Transformers.jsx`). Two pieces of state: the active view (architecture or training) and a step bounded by `maxSteps`. Previous and Next are guarded, and switching view resets the step. The blocks' active, highlight and visibility flags follow the step.
- **Neural-network animation** (`NNIntroNeuralNetwork.jsx`):
  - the layered layout: neuron heights and the `d3.cross` enumeration of connections;
  - the forward pass, which lights chosen neurons layer by layer;
  - the backward pass, which marks each layer's connections from last to first and places a marker at every connection's midpoint;
  - the `animationState` guard, which admits one pass at a time.

  The scheduled callbacks are modelled as lists of (delay, action) pairs, fired in list order.
- **Linear-regression animation** (`LinearRegression.jsx`). One tick is an online gradient step per point over a fixed six-point dataset, followed by the fitted line and the per-point error lines drawn through two affine scales.

Modules:

| file | module | models |
|---|---|---|
| `students.dfy` | `Students` | the record type, the seed records, first-match lookup, sums and means |
| `student_api.dfy` | `StudentApi` | `main.py`, as class `Registry` |
| `student_frontend.dfy` | `StudentFrontend` | `frontend.py`, as class `Session` plus pure search and statistics |
| `transformers.dfy` | `Transformers` | `Transformers.jsx`, as pure transitions plus class `Walkthrough` |
| `neural_network.dfy` | `NeuralNetwork` | `NNIntroNeuralNetwork.jsx`, as layout functions, scene updates, schedules and class `NetworkView` |
| `linear_regression.dfy` | `LinearRegression` | `LinearRegression.jsx`, as the fold `Epoch`, the geometry and class `RegressionView` |

Each state-changing handler is a method. Its postcondition ties the new state to a pure function of the old state. The properties are then proved as lemmas about those functions.

## Model

| member | source | states |
|---|---|---|
| Students.SeedStudents | main.py:17-32 | the initial list holds two records, with ids 1 and 2, which are distinct |
| Students.FirstIndex | main.py:50 | the index of the first record with the id; no earlier record has it; it is the length when none does |
| Students.FindById | frontend.py:80-85 | search by id yields None exactly when no record has the id; otherwise it yields a record of the list with that id, and no earlier record has it |
| Students.FirstIndexAppend | main.py:50-60 | after an append, the first match of an id already present stays put; a fresh id is found at the new record's position |
| Students.FindAfterAppend | main.py:50-61 | after appending a record with a fresh id, looking up that id yields the record; every other lookup is unchanged |
| Students.AppendKeepsIdsDistinct | main.py:58-60 | appending a record with a fresh id keeps the ids pairwise distinct |
| Students.FindByOwnId | main.py:48-53 | with distinct ids, looking up any record's own id yields that record |
| Students.Grades | main.py:73 | the grade column, one entry per record in list order |
| Students.Ages | main.py:75 | the age column, one entry per record in list order |
| Students.SumWithin | main.py:72-76 | a sum of n values within [lo, hi] lies within [n·lo, n·hi] |
| Students.MeanTimesCount | main.py:73-75 | the mean times the number of values is their sum |
| Students.MeanWithin | main.py:72-76 | the mean of values within [lo, hi] lies within [lo, hi] |
| StudentApi.StatusCode | main.py:51-59 | a refused add is reported with 400 and a missing record with 404 (both directions) |
| StudentApi.Registry.constructor | main.py:17-32 | the registry starts with the seed records and distinct ids |
| StudentApi.Registry.GetAllStudents | main.py:44-46 | the whole list, element by element, in insertion order |
| StudentApi.Registry.GetStudent | main.py:48-53 | an error exactly when no record has the id, namely 404 "Student not found"; otherwise a record of the list with that id, the only one when ids are distinct |
| StudentApi.Registry.AddStudent | main.py:55-61 | a duplicate id gives 400 "Student ID already exists" and leaves the list unchanged; a fresh id appends exactly that record at the end and returns it; the id invariant is kept; after a successful add, get returns the record |
| StudentApi.Registry.GetStatistics | main.py:63-76 | the total is the list length; all zero on an empty list; otherwise each average times the count equals the column sum |
| StudentApi.StatisticsWithinRange | main.py:72-76 | each reported average lies between any bounds that all the grades (ages) respect |
| StudentFrontend.Session.constructor | frontend.py:6-23 | the session starts with the two seed records, which satisfy the invariant |
| StudentFrontend.Session.SubmitAddForm | frontend.py:43-67 | a duplicate id is reported exactly when the id is present, even with an empty name; an empty name is reported exactly when the id is fresh and the name empty; either error leaves the list unchanged; success appends the record built from the form fields; ids stay distinct |
| StudentFrontend.LowerChar | frontend.py:89 | ASCII upper-case letters map to lower case, every other character is unchanged, and no upper-case letter results |
| StudentFrontend.Lower | frontend.py:89 | lowercases every character of the string, keeping its length |
| StudentFrontend.LowerIdempotent | frontend.py:89 | lowercasing twice equals lowercasing once |
| StudentFrontend.SearchByName | frontend.py:89 | the result contains exactly the records whose lowercased name contains the lowercased query (sound and complete) |
| StudentFrontend.SearchByNameConcat | frontend.py:89 | the search distributes over concatenation, so matches keep list order |
| StudentFrontend.EmptyOccurs | frontend.py:89 | the empty string occurs in every string |
| StudentFrontend.EmptyQueryMatchesAll | frontend.py:89 | an empty query returns the whole list |
| StudentFrontend.SearchIgnoresQueryCase | frontend.py:89 | a lowercased query finds the same records as the original query |
| StudentFrontend.InsertByGrade | frontend.py:128 | inserting into a grade-descending list gives a grade-descending permutation of the list plus the record |
| StudentFrontend.HeadDominates | frontend.py:128 | a record that outranks every record of the tail can be placed before it without breaking the order |
| StudentFrontend.SortByGradeDesc | frontend.py:128 | a permutation of the records ordered by grade, highest first |
| StudentFrontend.TopByGrade | frontend.py:128 | min(n, count) records, a sub-multiset of the list, ordered by grade |
| StudentFrontend.SplitDominates | frontend.py:128 | in a grade ordering, every record before a cut outranks every record after it |
| StudentFrontend.TopStudentsDominate | frontend.py:128 | every listed grade is at least every unlisted grade |
| StudentFrontend.ComputeStatistics | frontend.py:100-132 | nothing exactly for the empty list; otherwise the total is the list length, the two averages are the means of the grade and age columns, and the top list is `TopByGrade(ss, 3)`: min(3, count) ≤ 3 records, all from the list, outranking every unlisted record by `TopStudentsDominate` |
| StudentFrontend.StatisticsWithinFormBounds | frontend.py:44-47 | when every record came through the form, the mean grade lies in [0, 100] and the mean age in [15, 100] |
| Transformers.MaxSteps | animations/src/components/Transformers.jsx:77 | the active list's length minus one, which is 5 in either view |
| Transformers.Initial | animations/src/components/Transformers.jsx:6-7 | the architecture view at step 0, a valid state |
| Transformers.GetExplanation | animations/src/components/Transformers.jsx:75 | the entry at index `step` of the active view's list |
| Transformers.SelectView | animations/src/components/Transformers.jsx:182-201 | either view button sets that view and step 0, also when the view is already active |
| Transformers.Previous | animations/src/components/Transformers.jsx:220-221 | when enabled, decrements the step and keeps the view; when disabled, changes nothing; keeps validity |
| Transformers.Next | animations/src/components/Transformers.jsx:234-235 | when enabled, increments the step and keeps the view; when disabled, changes nothing; keeps validity |
| Transformers.EnabledMeansInRange | animations/src/components/Transformers.jsx:214-235 | on reachable states, the `disabled` tests agree with the styling tests `step > 0` and `step < maxSteps` |
| Transformers.NextThenPrevious | animations/src/components/Transformers.jsx:220-235 | Next followed by Previous is the identity whenever Next was enabled |
| Transformers.PreviousThenNext | animations/src/components/Transformers.jsx:220-235 | Previous followed by Next is the identity whenever Previous was enabled |
| Transformers.RunKeepsValid | animations/src/components/Transformers.jsx:182-235 | after any sequence of clicks, 0 ≤ step ≤ maxSteps still holds |
| Transformers.OneStageHighlighted | animations/src/components/Transformers.jsx:121-164 | at every reachable step, exactly one stage is highlighted among the rendered blocks: the stage numbered `step` |
| Transformers.ActiveBlocksRendered | animations/src/components/Transformers.jsx:121-134 | a highlighted block is active, and an active block is rendered |
| Transformers.QueryKeyValueShownBeforeActive | animations/src/components/Transformers.jsx:122-131 | Q, K and V are rendered at step 1, inactive there and active at step 2, where they are exactly the highlighted architecture blocks |
| Transformers.TrainingBlocksAlwaysRendered | animations/src/components/Transformers.jsx:158-165 | every block of the training view is rendered at every step |
| Transformers.Walkthrough.constructor | animations/src/components/Transformers.jsx:6-7 | the component starts in the initial state |
| Transformers.Walkthrough.ClickView | animations/src/components/Transformers.jsx:182-201 | the new state is the view switch applied to the old state |
| Transformers.Walkthrough.ClickPrevious | animations/src/components/Transformers.jsx:220-221 | the new state is the guarded Previous applied to the old state |
| Transformers.Walkthrough.ClickNext | animations/src/components/Transformers.jsx:234-235 | the new state is the guarded Next applied to the old state |
| Transformers.Walkthrough.Explanation | animations/src/components/Transformers.jsx:103-118 | the page shows the entry at index `step` of the active list |
| NeuralNetwork.Layers | animations/src/components/NNIntroNeuralNetwork.jsx:15-20 | four layers of 4, 5, 4 and 1 neurons |
| NeuralNetwork.NeuronYInside | animations/src/components/NNIntroNeuralNetwork.jsx:44 | every neuron's y lies strictly between 0 and the canvas height |
| NeuralNetwork.NeuronYIncreasing | animations/src/components/NNIntroNeuralNetwork.jsx:44 | within a layer, y strictly increases with the neuron index |
| NeuralNetwork.Row | animations/src/components/NNIntroNeuralNetwork.jsx:76 | the pairs (i, 0) … (i, b-1) in order |
| NeuralNetwork.Cross | animations/src/components/NNIntroNeuralNetwork.jsx:76 | a·b index pairs, each within range |
| NeuralNetwork.CrossAt | animations/src/components/NNIntroNeuralNetwork.jsx:76 | row-major order: the pair (i, j) sits at position i·b + j |
| NeuralNetwork.LayerLinks | animations/src/components/NNIntroNeuralNetwork.jsx:75-86 | n_i·n_{i+1} connections of layer i, each from a source neuron's position to a target neuron's position |
| NeuralNetwork.LinkAt | animations/src/components/NNIntroNeuralNetwork.jsx:76-83 | every source/target pair has its connection, at its row-major position |
| NeuralNetwork.DrawConnections | animations/src/components/NNIntroNeuralNetwork.jsx:71-87 | the drawing loop yields one block of connections for each of the layers 0..L-2, block i being layer i's connections |
| NeuralNetwork.AllPlain | animations/src/components/NNIntroNeuralNetwork.jsx:47 | n entries, all with the default look |
| NeuralNetwork.DefaultScene | animations/src/components/NNIntroNeuralNetwork.jsx:36-87 | the freshly drawn network: one entry per neuron and per connection, all plain, no markers |
| NeuralNetwork.ResetNetwork | animations/src/components/NNIntroNeuralNetwork.jsx:112-128 | every neuron and connection gets the default look, and all markers are removed |
| NeuralNetwork.ResetRestoresDefault | animations/src/components/NNIntroNeuralNetwork.jsx:112-128 | on any drawn network, resetting yields exactly the freshly drawn network |
| NeuralNetwork.ActivateNeurons | animations/src/components/NNIntroNeuralNetwork.jsx:90-108 | lights exactly the layer-k neurons whose index is in A and the layer-k connections whose source is in A; all else is unchanged; for the last layer, no connection changes |
| NeuralNetwork.AnimateBackprop | animations/src/components/NNIntroNeuralNetwork.jsx:132-171 | appends one marker per layer-k connection at its midpoint, in connection order; gives layer k's connections the backward look; leaves neurons unchanged; changes nothing for the last layer |
| NeuralNetwork.MidpointHalfway | animations/src/components/NNIntroNeuralNetwork.jsx:142-150 | a marker lies halfway along its connection, strictly between distinct endpoints |
| NeuralNetwork.BackwardSchedule | animations/src/components/NNIntroNeuralNetwork.jsx:174-193 | one timer per layer plus the reset and idle timers |
| NeuralNetwork.ScheduleBackward | animations/src/components/NNIntroNeuralNetwork.jsx:173-193 | the loop from the last layer down to 0 sets exactly the backward schedule |
| NeuralNetwork.ForwardScheduleShape | animations/src/components/NNIntroNeuralNetwork.jsx:182-189 | layers 0..3 are activated left to right at 500 + 1000k ms, with indices below each layer's size; reset and idle follow at 4500 ms, after every activation; the list is in firing order, and only its last timer sets idle |
| NeuralNetwork.BackwardScheduleShape | animations/src/components/NNIntroNeuralNetwork.jsx:174-193 | layer i is animated at (L-1-i)·1000 ms, so layers go last to first at strictly increasing times; reset and idle follow at L·1000 ms, after every layer |
| NeuralNetwork.BackwardFirstStepTouchesNothing | animations/src/components/NNIntroNeuralNetwork.jsx:132-175 | the backward pass's first step, on the last layer, leaves the scene unchanged |
| NeuralNetwork.Fire | animations/src/components/NNIntroNeuralNetwork.jsx:184-195 | a timer keeps the scene well-shaped and changes the state only when it sets idle |
| NeuralNetwork.RunTimers | animations/src/components/NNIntroNeuralNetwork.jsx:182-194 | firing a list of timers keeps the scene well-shaped |
| NeuralNetwork.RunEndsIdle | animations/src/components/NNIntroNeuralNetwork.jsx:188-193 | a schedule ending in reset then idle leaves the view idle and freshly drawn; the reset alone already restores the default look |
| NeuralNetwork.PassesEndIdleAndPlain | animations/src/components/NNIntroNeuralNetwork.jsx:182-195 | the forward schedule run in the forward state and the backward schedule run in the backward state both end idle, with every neuron and connection in its default look |
| NeuralNetwork.NetworkView.constructor | animations/src/components/NNIntroNeuralNetwork.jsx:6-87 | on mount, the view is idle over the freshly drawn network, with no timers pending |
| NeuralNetwork.NetworkView.ClickForward | animations/src/components/NNIntroNeuralNetwork.jsx:182-207 | from idle, enters forward over a reset network with the forward timers pending; otherwise nothing changes |
| NeuralNetwork.NetworkView.ClickBackward | animations/src/components/NNIntroNeuralNetwork.jsx:190-213 | from idle, enters backward over a reset network with the backward timers pending; otherwise nothing changes |
| NeuralNetwork.NetworkView.FireNext | animations/src/components/NNIntroNeuralNetwork.jsx:184-193 | the earliest pending timer fires and is removed; the view is idle exactly when no timer is pending |
| LinearRegression.Step | animations/src/components/LinearRegression.jsx:43-46 | b moves by lr·error and m by exactly b's move times the age; a zero-error point changes nothing |
| LinearRegression.EpochSnoc | animations/src/components/LinearRegression.jsx:42-47 | each point sees the parameters left by the previous point: folding over one more point is one more step |
| LinearRegression.EpochFixedPoint | animations/src/components/LinearRegression.jsx:43-46 | when every point lies on the current line, a tick leaves m and b unchanged |
| LinearRegression.EpochIgnoresBmi | animations/src/components/LinearRegression.jsx:8-13 | datasets that differ only in bmi give the same tick |
| LinearRegression.TickErrors | animations/src/components/LinearRegression.jsx:43-44 | one error per point, in dataset order |
| LinearRegression.EpochAccumulates | animations/src/components/LinearRegression.jsx:42-47 | over a tick, b moves by lr·Σ errorᵢ and m by lr·Σ errorᵢ·ageᵢ, each error taken along the tick's trajectory |
| LinearRegression.ScalesMapDomainToRange | animations/src/components/LinearRegression.jsx:18-23 | x maps 15 to 0 and 55 to the width and increases; y maps 1000 to the height and 10000 to 0 and decreases |
| LinearRegression.FittedLine | animations/src/components/LinearRegression.jsx:52-55 | the fitted line spans the plot width, between the model's values at ages 15 and 55 |
| LinearRegression.ErrorLine | animations/src/components/LinearRegression.jsx:60-63 | an error line is vertical at the point's age and runs from the actual charge to the prediction |
| LinearRegression.ErrorLineDegenerate | animations/src/components/LinearRegression.jsx:60-63 | an error line has zero length exactly when the point lies on the current line |
| LinearRegression.ErrorLineMeetsFittedLine | animations/src/components/LinearRegression.jsx:49-63 | the prediction end of every error line lies on the drawn fitted line |
| LinearRegression.RegressionView.constructor | animations/src/components/LinearRegression.jsx:7-38 | the dataset with m = 100 and b = 2000; the fitted line and one error line per point exist, not yet positioned |
| LinearRegression.RegressionView.UpdateLine | animations/src/components/LinearRegression.jsx:41-64 | the loop leaves m and b equal to the left fold of the step over the points, from the old parameters; the line and the error lines are redrawn from the new parameters |
| LinearRegression.FirstTick | animations/src/components/LinearRegression.jsx:35-48 | the first tick's parameters are the fold from m = 100, b = 2000 with lr = 0.00001; b ends at 2000 plus lr times the sum of the tick's errors |

## Left out

- Timers and lifecycle. `setInterval`/`clearInterval` in the regression animation is left out. So are the real-time behaviour of the `setTimeout` chains and the unmounting of components. A schedule is a list of (delay, action) pairs, fired in list order by `NetworkView.FireNext`; timers with equal delays fire in the order they were set.
- Rendering. The following are out of scope:
  - D3 selections, joins and transitions;
  - colours, stroke widths, radii and durations;
  - framer-motion animations;
  - SVG titles, axis-free labels and the input labels.

  Visual emphasis is an abstract value per neuron and per connection (`Plain`, `Lit`, `Adjusted`). The fade-in and fade-out of the backward pass's markers is not modelled; a marker stays in the scene until the next reset.
- LinearRegression.RegressionView.constructor: the six data circles drawn at mount are static markup and are not modelled; the fitted line and the error lines start with every coordinate 0, as attributes not yet set.
- NeuralNetwork.ActivateNeurons: `.layer-k` also selects the layer-k connections, after the neurons in document order. An active index at or beyond the layer's neuron count would set `fill` and `r` on a connection line. Those attributes have no visible effect on a line, so the model leaves connections unchanged in that case. Every index the forward schedule uses is below its layer's size.
- NeuralNetwork.Fire: a change of `animationState` re-runs the drawing effect, which clears the canvas and draws the network afresh. The return to idle is modelled as that redraw. The same redraw precedes the reset at the start of each pass.
- StudentFrontend.TopByGrade: `nlargest` orders ties by their position in the list. The model sorts stably by grade, highest first. Only the count, the sub-multiset relation, the grade ordering and dominance over the unlisted records are proved, not the tie order. Only the name and grade columns are displayed; the model keeps whole records.
- Framework plumbing is not modelled:
  - FastAPI routing, pydantic validation and uvicorn;
  - Streamlit widgets, page selection, `st.rerun`, and the success and info messages;
  - pandas DataFrame display, the grade and age histograms, and the formatting of the metrics.

  HTTP 400/404 are error results carrying their status code and detail text.
- StudentApi.Registry.AddStudent: requests are modelled as handled one at a time, each endpoint running to completion. FastAPI runs a plain `def` endpoint in a worker thread pool, so the duplicate check (main.py:58) and the append (main.py:60) of two concurrent POSTs can interleave. Two requests with the same fresh id could then both be appended, and the distinct-ids invariant proved here would not hold.
- The root endpoint's welcome message is not modelled: it is a constant response.
- Dates. `strftime` formatting of the enrollment date is not modelled; the form's date arrives as an already formatted string.
- Text. Python's `.lower()` is modelled on ASCII letters only, with no Unicode case mapping.
- Arithmetic. Averages, scales and the regression are computed over exact reals, not IEEE doubles. Nothing is claimed about rounding, divergence or convergence of the fit.
- The explanation and example prose of the Transformer walkthrough entries is not reproduced. Entries keep their titles only.
- `LogisticRegression.jsx` is not part of this model. Its update uses `Math.exp`, which has no exact counterpart over reals.
- `App.jsx`, `Navigation.jsx`, `NeuralNetworks.jsx` and `NNIntroApplesOranges.jsx` are not part of this model. They are routing tables and static markup.
