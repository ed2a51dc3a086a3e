# Departure monitor core: the trip→route join and configuration getters

This project models two pieces of pure logic from a small Python departure monitor
that reads a static GTFS feed. Both are written in Dafny and proved.

- **`Connection` construction** (`src/connection.py`). A `Connection` is one trip
  departing at a stop. GTFS `stop_times` rows name no route, so the trips table
  (`trips.txt` indexed by `trip_id`) gives the trip's `route_id`. The routes table
  (`routes.txt` indexed by `route_id`) then gives the route's short name, long name
  and `route_type` code. A fixed table turns the code into a vehicle label. It maps
  `0` to Straßenbahn, `2` to City-Bahn, `3` to Bus and `7` to Drahtseilbahn. Every
  other code gives the sentinel `???`. A missing trip or route raises pandas'
  `KeyError` for the missing label.
- **Configuration getters** (`src/env_manager.py`). Each getter reads one environment
  variable. A variable that is absent or empty is "not set", and the getter raises
  `ValueError("<NAME> is not set in the .env file.")`. Otherwise the value is
  converted: `get_path` makes a `Path`, and `get_radius` and `get_timeframe` apply
  `int()`.

Files:

- `wrappers.dfy`: module `Wrappers`. `Option`, and `Result` (`Ok` value or `Err` exception).
- `maps.dfy`: module `Maps`. `AgreeOn`, agreement of two tables at one key, used to state
  that an outcome depends on one entry only.
- `int_literal.dfy`: module `IntLiteral`. Python's `int(text)` in base 10 as `Parse`,
  and `str(n)` as its inverse `Show`. `int()` follows CPython 3.12 and later. A literal
  of more than 4300 digits is refused with its own `ValueError`. That count is made
  only after the whole text has passed the grammar.
- `env_manager.dfy`: module `EnvManager`. The getters over an explicit environment
  map `map<string, string>`.
- `connection.dfy`: module `Connections`. The two feed tables are immutable maps:
  `trip_id → route_id` and `route_id → RouteRow(short, long, type)`.
  `NewConnection` is the constructor. It returns a `Connection` record or a `KeyError`.

Facts about the code that shape the model:

- A failed join raises `KeyError` carrying the missing key. The code has no separate
  unknown-trip or unknown-route error.
- The vehicle labels are German strings.
- `get_radius` returns an `int`.
- `get_nearby_connections` in `src/main.py` is an empty stub. The code has no distance,
  time-window or caching logic.

## Model

| member | source | states |
|---|---|---|
| Connections.GetRouteId | src/connection.py:60-69 | The trip's route id is the trips table's `route_id` for that trip; an unknown trip raises `KeyError(trip_id)`, and only then |
| Connections.GetShortName | src/connection.py:85-92 | The short name is the `route_short_name` of the route's own row; an unknown route raises `KeyError(route_id)` |
| Connections.GetLongName | src/connection.py:94-101 | The long name is the `route_long_name` of the route's own row; an unknown route raises `KeyError(route_id)` |
| Connections.MapRouteType | src/connection.py:103-122 | Total: the sentinel `???` comes back exactly for codes outside the four-entry table, and any other answer is that code's table entry |
| Connections.MapRouteTypeTable | src/connection.py:116-122 | Codes 0, 2, 3 and 7 give Straßenbahn, City-Bahn, Bus and Drahtseilbahn; every other code gives `???` |
| Connections.MapRouteTypeInjective | src/connection.py:116-122 | A label other than the sentinel identifies its code: two codes with the same non-sentinel label are the same code |
| Connections.GetVehicleType | src/connection.py:124-133 | The vehicle is the mapped label of the `route_type` in the route's own row; an unknown route raises `KeyError(route_id)` |
| Connections.NewConnection | src/connection.py:11-44 | Construction succeeds iff the trip is in the trips table and its route is in the routes table. On success the record joins those two rows. A missing trip raises `KeyError(trip_id)`; a missing route raises `KeyError(route_id)` |
| Connections.JoinDeterminesConnection | src/connection.py:36-44 | Any record whose fields are read off the trip's row and its route's row, with the trip id kept unchanged, is exactly the one the constructor builds |
| Connections.NewConnectionFailsIffNoJoin | src/connection.py:34 | Construction raises exactly when no record joins the trip with an existing route |
| Connections.NewConnectionIsLocal | src/connection.py:36-44 | The outcome, failure included, depends only on the trip's row and its route's row; all other rows of both tables are irrelevant |
| EnvManager.Require | src/env_manager.py:19-21 | The shared guard fails with `NotSet(name)` iff the variable is absent or empty; otherwise it yields the stored non-empty text |
| EnvManager.GetPath | src/env_manager.py:6-22 | Fails iff the variable is absent or empty, with the message `<name> is not set in the .env file.`; otherwise the path is built from the stored text unchanged |
| EnvManager.GetInt | src/env_manager.py:67-72 | The guard, then `int()`: a not-set error iff the variable is absent or empty; otherwise `Ok` exactly when `int()` accepts the text, with its value, and each of `int()`'s two refusals as its own error |
| EnvManager.GetRadius | src/env_manager.py:58-72 | Not-set error iff `RADIUS` is absent or empty, checked before parsing. Otherwise success iff `int()` accepts the text, with the value `int()` gives. An invalid literal fails with `InvalidIntLiteral` of the text, and too many digits fail with `DigitLimitExceeded` of the digit count |
| EnvManager.GetTimeframe | src/env_manager.py:74-88 | Not-set error iff `TIMEFRAME` is absent or empty, checked before parsing. Otherwise success iff `int()` accepts the text, with the value `int()` gives. An invalid literal fails with `InvalidIntLiteral` of the text, and too many digits fail with `DigitLimitExceeded` of the digit count |
| EnvManager.GetLongitude | src/env_manager.py:34-37 | Fails with `NotSet("LONGITUDE")` iff `LONGITUDE` is absent or empty; otherwise passes the stored text on |
| EnvManager.GetLatitude | src/env_manager.py:51-54 | Fails with `NotSet("LATITUDE")` iff `LATITUDE` is absent or empty; otherwise passes the stored text on |
| EnvManager.Message | src/env_manager.py:21 | Only a not-set error's message ends with ` is not set in the .env file.`, and what precedes that suffix is exactly the variable's name. The messages of `int()`'s two errors never end that way |
| EnvManager.NotSetMessageNamesVariable | src/env_manager.py:21 | The name can be read back out of a not-set message: stripping the fixed suffix returns exactly the variable's name |
| EnvManager.NotSetMessageInjective | src/env_manager.py:21 | Different variables produce different not-set messages |
| EnvManager.GetPathRoundTrip | src/env_manager.py:18-22 | Storing a text and reading it back gives the path of that same text; an empty text reads back as not set |
| EnvManager.BlankIntIsInvalidLiteral | src/env_manager.py:68-72 | A whitespace-only value is not "not set": it passes the guard, and `int()` then rejects it with an invalid-literal error naming the text |
| EnvManager.GetIntRoundTrip | src/env_manager.py:68-72 | Storing the decimal text of an integer of at most 4300 digits and reading it back with the integer getter yields that integer. A longer one is refused with its digit count |
| EnvManager.RadiusAndTimeframeRoundTrip | src/env_manager.py:68-88 | A radius or time frame of at most 4300 digits, written as decimal text, reads back as the same integer |
| EnvManager.ReadsOnlyNamedVariable | src/env_manager.py:19-22 | Two environments that agree on a variable give the same outcome for the guard, `get_path` and the integer getter on it, whatever else they hold or lack |
| EnvManager.GettersReadOnlyTheirVariable | src/env_manager.py:34-88 | The `RADIUS`, `TIMEFRAME`, `LONGITUDE` and `LATITUDE` getters each give the same outcome in any two environments that agree on their own variable |
| EnvManager.TestSuiteValues | tests/test_env_manager.py:18-47 | `DATA_DIR=tmp_path` reads as the path `tmp_path`, `RADIUS=500` as 500 and `TIMEFRAME=30` as 30 |
| EnvManager.TestSuiteMessages | tests/test_env_manager.py:51-74 | With the variable absent, each getter's message is `<NAME> is not set in the .env file.` for `TMP_PATH`, `LATITUDE`, `LONGITUDE`, `RADIUS` and `TIMEFRAME` |
| IntLiteral.ParseShow | src/env_manager.py:72 | `int(str(n)) == n` for every integer of at most 4300 digits, negative ones included. The text of a longer one is refused with its digit count |
| IntLiteral.Parse | src/env_manager.py:72 | `int(text)` succeeds iff the text, once its surrounding whitespace is stripped, is an optional sign and a digit group of at most 4300 digits, with the signed value of its digits. It is an invalid literal iff the stripped text is no such literal, and a literal over the limit is refused with its digit count |
| IntLiteral.ParseStripped | src/env_manager.py:88 | The sign step: a text with no padding is accepted iff it is `+`, `-` or nothing, followed by a digit group of at most 4300 digits. The value is negated exactly after `-`, so `-0` is 0 and `-_1` is an invalid literal |
| IntLiteral.ParseBody | src/env_manager.py:72 | CPython's scan of a literal after its sign accepts exactly a digit group, with single underscores between digits, of at most 4300 digits, with its decimal value. It is an invalid literal exactly when the text is no digit group, and a group over the limit is refused with its digit count |
| IntLiteral.ParseTrailingTextFirst | src/env_manager.py:72 | The text after the digits is checked before the digits are counted: a digit group followed by text that starts with neither a digit nor `_` and is not all whitespace is an invalid literal, however many digits the group has. So `"1"*5000 + "x "` and `"12x\n"` are invalid literals |
| IntLiteral.ParseIgnoresPadding | src/env_manager.py:88 | Whitespace around a literal does not change what `int()` makes of it |
| IntLiteral.ParseBlank | src/env_manager.py:72 | A text that is empty or only whitespace is rejected by `int()` as an invalid literal |
| IntLiteral.DigitsValueOfNatToString | src/env_manager.py:72 | The decimal digits of any natural number form a valid digit group whose value is that number |
| IntLiteral.TrimLeft | src/env_manager.py:72 | Leading-space removal keeps a suffix that is empty or starts with a non-space, and everything removed was whitespace |
| IntLiteral.TrimRight | src/env_manager.py:72 | Trailing-space removal keeps a prefix that is empty or ends with a non-space, and everything removed was whitespace |

## Left out

- `load_dotenv()` and `os.getenv` read the process environment. The environment is a map parameter instead.
- `Connection.load_trips_df`, `Connection.load_routes_df` and `read_csv_to_dataframe` in `src/file_handler.py` are file I/O. The two `load_*_df` methods also call `get_path('INPUT_PATH')`, which can raise a not-set error. The two tables are given maps, so that failure is not part of `NewConnection`.
- pandas type inference is not modelled: all cells are strings. This covers numeric id columns read as integers, `str()` of a cell, `NaN` cells and duplicate index labels. With integer ids, a string `trip_id` lookup would miss.
- GetLongitude: the success value is the unconverted text. The conversion by `float()` and the rounding to 8 decimals are floating-point behaviour. So a text `float()` rejects gives `Ok` here, where Python raises `ValueError`.
- GetLatitude: the same as for `GetLongitude`. The source spells this getter `get_latitutde`.
- GetPath: the path holds the text it was built from. `pathlib` normalisation, such as collapsing duplicate slashes or dropping a trailing slash, is not modelled. Path equality here is therefore finer than Python's.
- EnvManager.Message: for an invalid int literal, the text is wrapped in single quotes. Python formats it with `repr()` and cuts it to 200 characters (`%.200R`). Neither the escaping nor the cut is modelled. Because of the cut, Python's invalid-literal message for a text of about 200 characters can itself end in ` is not set in the .env file.`. So `Message`'s promise that only a not-set message ends with that suffix holds for the model's messages, not for Python's.
- IntLiteral.Parse: Python's `int()` also accepts non-ASCII Unicode decimal digits. Here they are rejected.
- IntLiteral.MaxStrDigits: the digit limit is fixed at its default of 4300. `sys.set_int_max_str_digits` and `PYTHONINTMAXSTRDIGITS` can change or lift it. The limit exists from Python 3.11 and from the security releases 3.10.7, 3.9.14, 3.8.14 and 3.7.14; earlier releases have no limit.
- IntLiteral.ParseTrailingTextFirst: states the CPython 3.12 and later order. Python 3.11 and the security releases count the digits before they look at what follows them. So there, a run of more than 4300 digits followed by other text gives the digit-limit error instead of an invalid literal.
- IntLiteral.Show: writes the digits of every integer. Python's `str()` refuses an integer of more than 4300 digits. The round-trip lemmas state what `int()` makes of that text.
- `src/main.py` is an unfinished draft. It imports `get_position` and `get_distance`, which do not exist, and `get_nearby_connections` is an empty stub. There is no behaviour to model.
