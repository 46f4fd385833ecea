# Radar chart API — a Dafny model

This project models the core of a small Flask service. The service turns five
personality-trait scores into a radar (spider) chart. `POST /generate_chart`
does three things with the JSON body:

- It reads the traits Extraversion, Agreeableness, Conscientiousness,
  Neuroticism and Openness, in that order. A missing trait counts as 0.
- It answers 400 with `{"error": "All values must be numeric"}` unless every
  score is an `int` or a `float`. Python's `bool` is a subclass of `int`, so
  booleans pass.
- Otherwise it builds a closed polygon and renders it to a PNG. Any
  exception along the way becomes a 500 whose error is the exception's
  message.

The model has four modules:

- `PyJson` (`py_json.dfy`): a decoded JSON value, `dict.get` with a default,
  Python's `isinstance(v, (int, float))` and Python type names.
- `Traits` (`traits.dfy`): the five trait names in axis order.
- `Geometry` (`geometry.dfy`): the geometry half of `create_radar_chart`. It
  covers evenly spaced angles and closing the angle and score lists by
  repeating their first element. It also picks the angular tick positions and
  labels. An angle is its integer slot `k`, which stands for `k * 2pi / 5`, so
  no reals or pi are needed. `AngleInTurns` turns a slot into a fraction of a
  full turn.
- `ChartApi` (`chart_api.dfy`): the handler `generate_chart`. It covers score
  extraction, the numeric check, and mapping outcomes to 200/400/500
  responses.

Things the model takes as inputs:

- `Request`: what `request.json` produced. It is either a decoded body or the
  exception Flask raised while reading the body.
- The renderer: a parameter `Chart<Json> -> Rendering`. It either returns PNG
  bytes or raises with a message. Matplotlib and PNG encoding are foreign code
  with no pure contract, so they stay outside the model.

Every function is pure, so the same body always gives the same scores, the
same chart and the same response.

Two behaviours are easy to miss, and the model keeps both:

- Booleans pass the numeric check, because `bool` subclasses `int`.
- A body that is not a JSON object gets a 500, not a 400, because
  `data.get` raises AttributeError.

## Model

| member | source | states |
|---|---|---|
| Traits.TraitsAreFiveDistinct | radar_chart_api.py:9 | There are five trait names and they are pairwise distinct, so each trait owns exactly one axis. |
| Geometry.Linspace | radar_chart_api.py:12 | The n evenly spaced angles are the slots 0..n-1 in order. Slot i is the i-th step of 2pi/n. |
| Geometry.LinspaceIncreasing | radar_chart_api.py:12 | The slots are strictly increasing and all lie below n. |
| Geometry.Close | radar_chart_api.py:13-14 | Closing a non-empty list adds exactly one element, a copy of the first. The original elements stay in place. An empty list stays empty, as `s[:1]` is empty. |
| Geometry.DropLastUndoesClose | radar_chart_api.py:13-14 | Dropping the last element (`[:-1]`) after closing gives back the original list, for every list. |
| Geometry.BuildChart | radar_chart_api.py:11-21 | The closed angles are 0,1,2,3,4,0. For five scores there are six radii: the five scores unchanged (no scaling or clamping), then the first one again. Angles and radii have equal length. The tick positions are the closed angles without the closing one. The tick labels are the traits, so label i sits at slot i. |
| Geometry.SlotFractions | radar_chart_api.py:12 | Every slot below n, the last one included, is a fraction of a full turn in [0, 1). Of two slots below n, the later one is a strictly larger fraction. |
| Geometry.LinspaceWithinOneTurn | radar_chart_api.py:12 | Every angle `linspace` produces lies in [0, 1) of a full turn, that is [0, 2pi), and the angles strictly increase. |
| Geometry.DropLast | radar_chart_api.py:20 | `angles[:-1]` keeps everything but the last element: putting the last element back gives the list again. An empty list stays empty. |
| Geometry.BuildChartInjective | radar_chart_api.py:11-14 | The chart is determined by the scores, and only by them. Equal scores give equal charts, and equal charts come from equal scores. |
| PyJson.IsNumeric | radar_chart_api.py:41 | `isinstance(v, (int, float))`, computed from the classes of the value's Python type, holds exactly for ints, floats and booleans. Booleans pass because `bool` derives from `int`. |
| PyJson.Get | radar_chart_api.py:34-38 | `data.get(key, 0)` returns the stored value when the key is present and the default otherwise. |
| PyJson.TypeName | radar_chart_api.py:34 | The Python type name of a decoded value, as the AttributeError raised by `data.get` spells it. It is "dict" only for objects and "bool" only for booleans. |
| PyJson.TypeNameIdentifiesType | radar_chart_api.py:34 | Two values get the same type name exactly when they decode to the same Python type (NoneType, bool, int, float, str, list, dict), so the name in the error message identifies the type. |
| ChartApi.NoGetMessage | radar_chart_api.py:34-47 | The message `str(e)` of that AttributeError is a quote, the type name, then "' object has no attribute 'get'". The type name can be read back from it. |
| ChartApi.Scores | radar_chart_api.py:33-39 | The list of five scores: score i is the value of trait i when it is present, and the integer 0 when it is missing. |
| ChartApi.Extract | radar_chart_api.py:33-39 | There is one score per key, in key order. A present key yields its value unchanged. A missing key yields the integer 0. |
| ChartApi.ScoresFollowTraitOrder | radar_chart_api.py:33-39 | The scores are exactly the literal list the handler builds: the `data.get(trait, 0)` values from Extraversion to Openness. |
| ChartApi.AllNumeric | radar_chart_api.py:41 | The check passes if and only if every score is an int, float or bool. |
| ChartApi.GenerateChart | radar_chart_api.py:30-47 | A PNG response always has mimetype `image/png`. An error response is 400 or 500. Every 400 carries "All values must be numeric". An exception raised while reading the body becomes a 500 with its message. |
| ChartApi.OnlyTraitsMatter | radar_chart_api.py:33-39 | Two object bodies that agree on the five traits get the same response. Here a missing trait equals an explicit 0, and keys outside the five are ignored. |
| ChartApi.MissingTraitsDefaultToZero | radar_chart_api.py:33-39 | `{"Openness": 5}` yields the scores 0,0,0,0,5. Its response is the one for all five traits with the other four at 0. |
| ChartApi.RejectedIffSomeTraitNotNumeric | radar_chart_api.py:41-42 | The response is the 400 "All values must be numeric" if and only if the body is an object and some trait is present with a value that is not int, float or bool, such as a string, null, a list or an object. |
| ChartApi.RejectionIgnoresRenderer | radar_chart_api.py:41-44 | A rejected request gets the same 400 whatever the renderer would do, so no chart is built for it. |
| ChartApi.BooleansAreAccepted | radar_chart_api.py:41 | A body whose values are all booleans is never rejected. When its chart renders, the answer is that PNG. |
| ChartApi.ChartIffValidAndRendered | radar_chart_api.py:41-45 | A PNG comes back if and only if three things hold: the body is an object, its present traits are all numeric, and the renderer succeeds on the chart of the five scores. The bytes are the renderer's. That chart pairs six radii (the scores, then the first again) with six angles. |
| ChartApi.ServerErrorIffException | radar_chart_api.py:30-47 | A 500 with message m comes back if and only if one of three exceptions carried m: reading the body raised it, `data.get` raised it on a non-object body, or rendering a valid body raised it. |
| ChartApi.NullBodyMessage | radar_chart_api.py:32-47 | A JSON `null` body gets exactly 500 with "'NoneType' object has no attribute 'get'". |
| ChartApi.NonObjectBodyIsServerError | radar_chart_api.py:32-47 | A body that is null, a list, a string, a number or a boolean gets a 500 with "'<type>' object has no attribute 'get'", where `<type>` is the Python type name. |

## Left out

- Drawing and encoding (figure creation, fill and outline, radial tick-label suppression, PNG encoding into a byte buffer, closing the figure; radar_chart_api.py:16-27): foreign rendering code, modelled as the renderer parameter.
- The floating-point values of `np.linspace(0, 2pi, 5, endpoint=False)`: angles are integer slots, and `AngleInTurns` gives their fraction of a turn.
- Flask routing, JSON parsing, `send_file`, `jsonify` and `app.run`: HTTP plumbing. The model starts from an already decoded body, or the exception decoding raised.
- The in-place update of the caller's list by `scores += scores[:1]`: `Close` returns a new sequence, and the handler never reads its list again.
- JSON floats are reals, so `NaN` and `Infinity`, which Python's decoder accepts and the numeric check lets through, are not represented.
- Duplicate keys in a JSON object: the body arrives as a map, after the decoder has resolved them.
- File sinks, JPEG output, random artifact file names and directory creation: the service's code has no such path, so there is nothing to model.
- Concurrency and pyplot's shared state: the renderer parameter is a function of the chart alone. It does not capture that `plt.savefig` (radar_chart_api.py:24) saves pyplot's global current figure rather than `fig`, so two interleaved requests on the threaded server started at radar_chart_api.py:50 can race and one can encode the other's figure. It also does not capture that an exception in radar_chart_api.py:17-24 skips `plt.close(fig)` at radar_chart_api.py:26 and leaks the figure.
