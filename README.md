# Mock model registry of the WebGNOME front end

This project models the in-memory model registry that the WebGNOME web front end uses in place of real
`py_gnome` models (`web/gnome/webgnome/webgnome/mock_model.py`), and proves properties of it.

- `ModelManager` keeps the pool of running models in a dictionary keyed by model id. It can create a model,
  get it or create it, look it up (an unknown id raises `DoesNotExist`), add or overwrite an entry, delete
  one (deleting an absent id is not an error) and test whether an id exists.
- `MockModel` has an id and a table of movers keyed by mover id. It can add a mover under a new id, update
  a mover (reporting whether the id was present), delete one, look one up, test whether one exists, and
  build the title a mover is shown under.

The Dafny model has two modules:

- `PyStr` (`py_str.dfy`) holds the two Python string methods the title is built with. `str.replace` is
  modelled for a one-character pattern. `str.title` is modelled with its case rule: a character after a
  cased character is lower-cased, and every other character is upper-cased.
- `MockModels` (`mock_model.dfy`) holds the two classes. Each dictionary the source mutates is a `map`
  field, which the methods reassign. The read-only queries are functions that read the object. Every
  mutating method states the new map. It also states, through those queries, what changed and that
  nothing else did.

A UUID is a 128-bit integer (`Uuid`). `uuid.uuid4()` is not modelled as a generator. Instead, `Create`,
`GetOrCreate` and `AddMover` take the freshly drawn id as a parameter `newId`. Their precondition that
`newId` is not already a key of the table stands for uuid4's uniqueness: the source relies on it and does
not check it. A falsy `model_id` passed to `get_or_create` (`None`, the empty string) is `None` of
`Option`. A mover object made by `make_object_from_dict` is the dictionary of its attributes (`Mover`).
Attribute values are text. `type`, `speed` and `direction` are the text that `%s` renders them as.
`speed_type` is never rendered: the source compares the value itself with `==`. The model compares it
as text, which matches the source when the value is a string.

## Model

| member | source | states |
|---|---|---|
| `MockModels.ModelManager.constructor` | web/gnome/webgnome/webgnome/mock_model.py:18-19 | a new manager has an empty pool |
| `MockModels.ModelManager.Create` | web/gnome/webgnome/webgnome/mock_model.py:21-24 | the new model has the fresh id and no movers; it is stored under its own id, so `Exists` and `Get` find it; every other id's entry is unchanged; the pool grows by exactly one |
| `MockModels.ModelManager.GetOrCreate` | web/gnome/webgnome/webgnome/mock_model.py:26-42 | `created` is false exactly when a truthy id that is in the pool was given; then the result is the stored model and the pool is unchanged; otherwise a new model with the fresh id and no movers is inserted and returned |
| `MockModels.ModelManager.Get` | web/gnome/webgnome/webgnome/mock_model.py:44-47 | fails with `DoesNotExist` exactly when the id is not in the pool; otherwise returns the model stored under it |
| `MockModels.ModelManager.Add` | web/gnome/webgnome/webgnome/mock_model.py:49-50 | afterwards `Get(id)` returns the given model, whatever was there before; `Get` of every other id is unchanged |
| `MockModels.ModelManager.Delete` | web/gnome/webgnome/webgnome/mock_model.py:52-53 | afterwards the id does not exist; `Get` of every other id is unchanged; deleting an absent id leaves the pool as it was (no error path) |
| `MockModels.ModelManager.Exists` | web/gnome/webgnome/webgnome/mock_model.py:55-56 | true exactly when `Get` of the id succeeds |
| `MockModels.MockModel.constructor` | web/gnome/webgnome/webgnome/mock_model.py:63-65 | a new model carries the fresh id and an empty mover table |
| `MockModels.MockModel.GetMover` | web/gnome/webgnome/webgnome/mock_model.py:71-73 | returns the mover stored under the id when there is one, and None exactly when there is none |
| `MockModels.MockModel.HasMoverWithId` | web/gnome/webgnome/webgnome/mock_model.py:99-101 | true exactly when `GetMover` finds a mover under the id |
| `MockModels.MockModel.AddMover` | web/gnome/webgnome/webgnome/mock_model.py:103-106 | returns the fresh id, which was not in the table before; the mover built from the data is stored under it; every other entry is unchanged; the table grows by exactly one |
| `MockModels.MockModel.UpdateMover` | web/gnome/webgnome/webgnome/mock_model.py:108-113 | returns true exactly when the id was present; then only that entry is replaced by the new mover; when it returns false the table is unchanged; the set of ids never changes |
| `MockModels.MockModel.DeleteMover` | web/gnome/webgnome/webgnome/mock_model.py:115-118 | afterwards no mover has the id; every other entry is unchanged; an absent id leaves the table as it was |
| `MockModels.SpeedAbbreviation` | web/gnome/webgnome/webgnome/mock_model.py:125-129 | "mi/hr" exactly for speed type "miles", "mt/sec" exactly for "meters", "kt" exactly for every other speed type |
| `MockModels.FirstMissing` | web/gnome/webgnome/webgnome/mock_model.py:126-133 | the index of the first attribute name the object lacks (all earlier ones present), or None exactly when none is missing: the attribute that Python's left-to-right evaluation fails on |
| `MockModels.MockModel.GetMoverTitle` | web/gnome/webgnome/webgnome/mock_model.py:120-134 | fails exactly when the mover lacks one of `speed_type`, `type`, `speed`, `direction`, with an AttributeError naming the first one read in that order |
| `MockModels.MockModel.GetMoverTitleLayout` | web/gnome/webgnome/webgnome/mock_model.py:131-134 | a successful title is a heading as long as the type, then ": ", the speed, the abbreviation for the speed type and the direction, separated by single spaces; in the heading an underscore is a space, a letter after a letter is lower-case, and every other character is upper-cased |
| `PyStr.ReplaceChar` | web/gnome/webgnome/webgnome/mock_model.py:132 | same length as the input; every `_` becomes a space, and every other character stays where it was |
| `PyStr.TitleFrom` | web/gnome/webgnome/webgnome/mock_model.py:132 | the scan behind `title()`: same length; each character is lower-cased when the one before it (or the incoming flag, for the first) is cased, and upper-cased otherwise |
| `PyStr.Title` | web/gnome/webgnome/webgnome/mock_model.py:132 | `title()`: same length; each character is lower-cased after a cased character and upper-cased at the start or after an uncased one |

## Left out

- `MockModel.run` (lines 136-149) is not modelled. It globs image files on disk and reads the wall clock.
- `uuid.uuid4()` (lines 64, 104) is not modelled as a generator. The fresh id is a parameter, and its
  freshness is a precondition, as described above.
- `get_uuid` (lines 89-90) is not modelled. Ids are already-parsed `Uuid` values, so the ValueError that
  `uuid.UUID` raises on a malformed id string is not part of the model.
  `uuid.UUID(id)` also accepts only strings. The `UUID` object that `add_mover` returns raises
  AttributeError when passed back to `get_mover`, `has_mover_with_id`, `update_mover` or `delete_mover`,
  so the model's round trip (the id `AddMover` returns is found by `GetMover`) holds in the source only
  through `str(id)`.
- `make_object_from_dict` (lines 92-97) builds a new class per call. A mover is modelled as the value of
  its attributes, so the identity of each mover object is not captured.
- `get_movers`, `get_spills`, `get_settings`, `has_map` and `get_map` (lines 68-87) are not modelled. They
  return a field, a constant or a freshly built mock object. The `spills` table, which nothing in the file
  changes, is left out with them.
- `MockModels.MockModel.GetMoverTitle`: attribute values are taken as text. When `type` is not a string
  (None, a number, a list or a dict), `mover.type.replace` raises AttributeError; that error is not
  modelled.
- `PyStr.Title`: only ASCII letters are cased and have case mappings. Unicode case rules are not modelled.
- `MockModels.ModelManager.Add`: the pool's values are `MockModel` objects. Python would also accept
  `None` or any other value, and a stored `None` would make `get_or_create` create a new model.
