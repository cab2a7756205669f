# Predictive risk dashboard: a Dafny model

This project models the two pieces of logic in the predictive risk scoring
dashboard.

- **The dashboard component** (`frontend/src/App.js`).
  - Module `View` holds its pure part: the `filteredRisks` projection, the severity colours and the mock trend.
    - The projection filters the records by exact status and then sorts them, by descending score or by ascending id.
    - The severity colours are the same for the cards, the bar chart and the trend line.
    - The mock trend has ten points.
  - Module `Dashboard` holds its state-changing part as class `App`.
    - The fields are the component's `useState` fields plus `localStorage`, which is modelled as a string map.
    - The methods are the login and logout handlers, the select handlers, the selection and the fetch lifecycle (start, success, failure).
    - Handlers run to completion. After each one, `RunEffect` plays React's effect: it starts a fetch when `admin` or `model` changed since the previous render and `admin` is truthy.
    - `CurrentScreen` is the render gate: login form, then spinner, then dashboard. A handler requires the screen on which its control is rendered. The one exception is `Logout`, which is also admitted on the login form so that its idempotence can be stated.
    - The object invariant `Valid` follows from the gate. The spinner is up exactly while one request is outstanding, and that request is for the current model. So no response can arrive for a model that is no longer selected.
- **The scoring endpoint's record builder** (`backend/app.py`, `get_risk_scores`).
  - Module `RiskScores` has one method for the reasons of a row and one for the loop over rows.
  - The anomaly model's integer score and its ±1 prediction for every row are inputs.
  - The handler reads no request arguments, and neither does `GetRiskScores`. So its result cannot depend on the `model` parameter that the dashboard sends.

The model follows the code on these points, which are easy to misread:
- `admin` starts as the stored string itself, and the session is open when that string is truthy. A stored empty string therefore opens no session.
- Logout keeps `risks`.
- A refresh does not clear `selectedUser`.
- There is no request token: the gate makes sure at most one request is ever outstanding.

## Model

| member | source | states |
|---|---|---|
| View.Keep | frontend/src/App.js:53 | the filter `all` keeps every record; any other filter keeps a record iff its status equals the filter |
| View.FilterByStatus | frontend/src/App.js:52-53 | every kept record passes the filter (filter `all`, or exact status match); the result is no longer than the input |
| View.FilterCount | frontend/src/App.js:53 | the filter keeps a record exactly when it matches, as many times as it occurs in `risks`, and drops every other record |
| View.FilterAllIsIdentity | frontend/src/App.js:53 | with filter `all` every record is kept, in order |
| View.IdLe | frontend/src/App.js:54 | the id order standing in for `localeCompare`: a prefix comes no later than any extension of it, and an id is ordered no later than another only if its first character is not greater |
| View.IdLeTotal | frontend/src/App.js:54 | the id order (ordinal lexicographic, standing in for `localeCompare`) is total |
| View.IdLeTransitive | frontend/src/App.js:54 | the id order is transitive |
| View.IdLeAntisymmetric | frontend/src/App.js:54 | two ids each ordered before the other are equal |
| View.Before | frontend/src/App.js:54 | the comparator does not put `a` after `b`: with key `score` iff `a`'s score is at least `b`'s (`b.score - a.score <= 0`), with any other key iff `a`'s id is ordered no later than `b`'s |
| View.BeforeTotal | frontend/src/App.js:54 | for either sort key, of two records one may stand before the other |
| View.BeforeTransitive | frontend/src/App.js:54 | the comparator's "may stand before" relation is transitive for either key |
| View.Insert | frontend/src/App.js:54 | one insertion step of the sort: the result is one longer, holds the inserted record and every record it was given |
| View.SortBy | frontend/src/App.js:54 | the sort keeps the length and every record it was given |
| View.InsertPermutes | frontend/src/App.js:54 | inserting a record adds exactly that record to the multiset |
| View.InsertSorted | frontend/src/App.js:54 | inserting into a sorted sequence keeps it sorted |
| View.SortPermutes | frontend/src/App.js:54 | the sort is a permutation |
| View.SortSorts | frontend/src/App.js:54 | the sort's output is ordered by the comparator |
| View.Project | frontend/src/App.js:52-54 | the view is a permutation of the filtered records; with key `score` the scores are non-increasing; with any other key the ids are non-decreasing |
| View.ProjectExact | frontend/src/App.js:52-53 | each record occurs in the view as often as in `risks` if it passes the filter, otherwise never |
| View.ProjectMembers | frontend/src/App.js:52-53 | a record is on display iff it is in `risks` and the filter is `all` or equals its status |
| View.ProjectAllPermutes | frontend/src/App.js:52-54 | with filter `all` the view is a permutation of `risks` |
| View.ChartColor | frontend/src/App.js:159-162 | the bar fill (and the identical line stroke at lines 188-191) is purple iff `suspicious`, red iff `high risk`, amber iff `risk`, green for every other string |
| View.CardClass | frontend/src/App.js:129-132 | the card's status style is purple, red, yellow or green text under the same four conditions |
| View.ColorVariantsAgree | frontend/src/App.js:188-191 | the card and the charts put every status in the same colour class |
| View.PointAt | frontend/src/App.js:57-60 | point i is labelled `T` followed by i+1, and its score is at least 5: the raw value when that is at least 5, else 5 |
| View.MockTrend | frontend/src/App.js:56-61 | exactly ten points, point i labelled `T` + (i+1), every score at least 5 and equal to the raw value unless raw is below 5 |
| View.MockTrendLabels | frontend/src/App.js:58 | the labels are exactly `T1` … `T10`, in index order |
| View.Decimal | frontend/src/App.js:58 | the numeral in a label is a non-empty string of decimal digits with no leading zero that denotes the number; below ten it is the single digit |
| Dashboard.Truthy | frontend/src/App.js:33 | JavaScript truthiness of `admin`: null is falsy, a stored string is truthy iff it is non-empty, a boolean is itself |
| Dashboard.App.Valid | frontend/src/App.js:18-34 | the object invariant: while the spinner is up there is exactly one outstanding request, for the current model, during a session; otherwise none |
| Dashboard.App.FilteredRisks | frontend/src/App.js:52-54 | the displayed records are a permutation of the filtered records, by non-increasing score for key `score`, by non-decreasing id otherwise |
| Dashboard.App.CurrentScreen | frontend/src/App.js:63-92 | login form iff `admin` is falsy, spinner iff truthy and loading, dashboard iff truthy and not loading |
| Dashboard.App.DetailChart | frontend/src/App.js:172-199 | the trend panel is shown iff the dashboard is on screen and a user is selected; it carries that user's id, the mock trend and the colour of the user's status |
| Dashboard.App.constructor | frontend/src/App.js:8-15 | initial fields (`admin` read from storage, empty password and records, filter `all`, key `id`, model `iforest`, no selection); the first effect starts a fetch iff the stored marker is truthy |
| Dashboard.App.FetchStart | frontend/src/App.js:18-20 | issuing a fetch turns `loading` on and adds a request for the current model |
| Dashboard.App.RunEffect | frontend/src/App.js:32-34 | a fetch is issued iff `admin` or `model` changed since the last render and `admin` is truthy |
| Dashboard.App.SetPassword | frontend/src/App.js:73 | only `password` changes |
| Dashboard.App.Login | frontend/src/App.js:36-43 | `admin123` stores `admin='true'`, sets `admin` true and issues a fetch; any other password is rejected and changes nothing |
| Dashboard.App.Logout | frontend/src/App.js:45-50 | the marker is removed, `admin` false, password empty, no selection; records, filter, key, model and loading unchanged; on a signed-out state it changes nothing (idempotent) |
| Dashboard.App.SetFilter | frontend/src/App.js:102 | only `filter` changes; no fetch |
| Dashboard.App.SetSortKey | frontend/src/App.js:109 | only `sortKey` changes; no fetch |
| Dashboard.App.SetModel | frontend/src/App.js:113 | `model` changes; a fetch for the new model is issued iff it differs from the old one |
| Dashboard.App.Select | frontend/src/App.js:124 | a displayed card's record becomes the selection; nothing else changes |
| Dashboard.App.Deselect | frontend/src/App.js:176 | the selection is cleared; records and view settings unchanged |
| Dashboard.App.FetchSucceeded | frontend/src/App.js:22-25 | the answer was for the current model; `risks` replaced wholesale by the data, `loading` off, nothing else changes |
| Dashboard.App.FetchFailed | frontend/src/App.js:26-29 | `risks` kept, `loading` off, nothing else changes |
| RiskScores.StatusOf | backend/app.py:23 | `suspicious` iff the prediction is -1, `normal` iff it is not; no other value |
| RiskScores.Triggered | backend/app.py:27-34 | condition k of the catalogue: network spike equal to 1, remote login equal to 1, file access above 15, login count above 25; no condition beyond the fourth |
| RiskScores.ExpectedReasons | backend/app.py:26-34 | the reasons of a row are catalogue entries, at most four |
| RiskScores.RecordFor | backend/app.py:36-42 | a row's record has the row's id and ip and the given score; status `suspicious` iff the prediction is -1; each reason present iff its condition holds; at most four reasons |
| RiskScores.BuildReasons | backend/app.py:26-34 | the conditional appends give exactly the catalogue reasons whose conditions hold, in catalogue order |
| RiskScores.PickPositions | backend/app.py:26-34 | what the appends select are catalogue entries at strictly increasing positions whose conditions hold |
| RiskScores.PickMember | backend/app.py:26-34 | with distinct entries, an entry is selected iff its condition holds |
| RiskScores.ReasonsPresent | backend/app.py:26-34 | each reason is present iff its condition holds: `network_spike == 1`, `remote_login == 1`, `file_access > 15`, `login_count > 25` |
| RiskScores.ReasonsOrdered | backend/app.py:26-34 | the reasons follow the order network, remote, file, logins; no duplicates; at most four |
| RiskScores.GetRiskScores | backend/app.py:20-42 | one record per row, in row order; record i has row i's id and ip, score i, the status of prediction i and row i's reasons |

## Left out

- Rendering (JSX, Tailwind classes other than the status styles, recharts) is presentation. The model keeps only the data the charts and cards receive.
- `fetch`, `res.json()` and the promise scheduling are left out. A fetch is three events: `FetchStart`, then `FetchSucceeded(data)` or `FetchFailed`. The response body is any sequence of records, with no validation, as in the source.
- `alert` and `console.error` are left out. `Login` returns whether the alert would be shown.
- `Math.sin`, `Math.random` and `Math.round` in the mock trend are floating point and randomness. The trend takes the ten rounded values before the floor as an input `raw`.
- Dashboard.App.Logout: admitted on the login form as well as on the dashboard, although the source renders the Logout button only on the dashboard. There it leaves the login form on screen and starts no fetch. It still removes a stored marker (an empty one, in that case) and sets `admin` to false.
- View.Project: `localeCompare` is locale-dependent, so the model orders ids by ordinal character comparison.
- View.Project: ECMAScript requires `sort` to be stable. The model's insertion sort keeps ties in input order, but no contract states that.
- The backend's pandas CSV load, IsolationForest (`fit`, `decision_function`, `predict`), Flask and CORS are left out. So is the float formula `int((1 - s) * 25 + 25)`. `GetRiskScores` receives the integer scores and the predictions.
- Ids are integers on the backend (`Record.id`) and strings on the dashboard (`RiskRecord.id`, compared with `localeCompare`). The two are not reconciled, and the `ip` field the backend adds is not part of the dashboard's record.
- The model has no request token. The render gate already rules out the race such a token would guard against: requests for two models in flight at the same time, or a stale answer overwriting a fresh one.
