/** The in-memory model registry of the web front end: a pool of mock models
    keyed by model id, and in each mock model a table of movers keyed by mover
    id, with the title a mover is shown under. */
module MockModels {
  import opened PyStr

  const UUID_BOUND: int := 0x1_0000_0000_0000_0000_0000_0000_0000_0000

  /** A UUID, as the 128-bit integer it stands for. */
  type Uuid = n: int | 0 <= n < UUID_BOUND

  datatype Option<T> = None | Some(value: T)

  datatype Result<T, E> = Success(value: T) | Failure(error: E)

  /** The exception `ModelManager.get` raises for an id that is not in the pool. */
  datatype DoesNotExist = DoesNotExist

  /** The AttributeError Python raises when a mover object lacks the named attribute. */
  datatype AttributeError = AttributeError(name: string)

  /** The attributes of a mover, each value as text: `speed_type` is compared
      as it is, the others as the text `%s` renders them as. */
  type Attributes = map<string, string>

  /** The object `make_object_from_dict` builds from a dict: an object whose
      attributes are the dict's entries. */
  datatype Mover = Mover(attributes: Attributes)

  /** The attributes `get_mover_title` reads, in the order Python evaluates them. */
  const TITLE_ATTRIBUTES: seq<string> := ["speed_type", "type", "speed", "direction"]

  /** The index of the first of `names` that `attrs` lacks, if any. */
  function FirstMissing(names: seq<string>, attrs: Attributes): (r: Option<nat>)
    ensures r.Some? ==> r.value < |names| && names[r.value] !in attrs
    ensures r.Some? ==> forall j :: 0 <= j < r.value ==> names[j] in attrs
    ensures r.None? <==> forall j :: 0 <= j < |names| ==> names[j] in attrs
  {
    if names == [] then None
    else if names[0] !in attrs then Some(0)
    else
      match FirstMissing(names[1..], attrs)
      case None => None
      case Some(k) => Some(k + 1)
  }

  /** The speed unit abbreviation for a mover's `speed_type`: miles per hour
      for "miles", metres per second for "meters", knots for anything else. */
  function SpeedAbbreviation(speedType: string): (abbrev: string)
    ensures abbrev == "mi/hr" <==> speedType == "miles"
    ensures abbrev == "mt/sec" <==> speedType == "meters"
    ensures abbrev == "kt" <==> speedType != "miles" && speedType != "meters"
  {
    if speedType == "miles" then "mi/hr"
    else if speedType == "meters" then "mt/sec"
    else "kt"
  }

  /** The character of a mover's title heading at index `i` of its `type`:
      an underscore becomes a space, a letter after a letter is lower-cased,
      and every other character is upper-cased. */
  function HeadingChar(moverType: string, i: nat): char
    requires i < |moverType|
  {
    if moverType[i] == '_' then ' '
    else if i > 0 && IsCased(moverType[i - 1]) then ToLower(moverType[i])
    else ToUpper(moverType[i])
  }

  /** A mock model: an id and a table of movers keyed by mover id. */
  class MockModel {
    const id: Uuid
    var movers: map<Uuid, Mover>

    /** A new model with the (fresh) id `newId` and no movers. */
    constructor (newId: Uuid)
      ensures id == newId && movers == map[]
    {
      id := newId;
      movers := map[];
    }

    /** The mover stored under `moverId`, or None when there is none. */
    function GetMover(moverId: Uuid): (r: Option<Mover>)
      reads this
      ensures r.Some? <==> moverId in movers
      ensures r.Some? ==> r.value == movers[moverId]
    {
      if moverId in movers then Some(movers[moverId]) else None
    }

    /** Whether a mover is stored under `moverId`. */
    function HasMoverWithId(moverId: Uuid): (present: bool)
      reads this
      ensures present <==> GetMover(moverId).Some?
    {
      moverId in movers
    }

    /** Stores a mover built from `data` under the fresh id `newId` and returns that id. */
    method AddMover(data: Attributes, newId: Uuid) returns (moverId: Uuid)
      requires newId !in movers
      modifies this
      ensures moverId == newId && !old(HasMoverWithId(moverId))
      ensures GetMover(moverId) == Some(Mover(data))
      ensures forall k :: k != moverId ==> GetMover(k) == old(GetMover(k))
      ensures movers == old(movers)[moverId := Mover(data)]
      ensures |movers| == |old(movers)| + 1
    {
      moverId := newId;
      movers := movers[moverId := Mover(data)];
      assert movers.Keys == old(movers).Keys + {moverId};
    }

    /** Replaces the mover under `moverId` by one built from `data` when there
      is one, reporting whether it did. */
    method UpdateMover(moverId: Uuid, data: Attributes) returns (updated: bool)
      modifies this
      ensures updated <==> old(HasMoverWithId(moverId))
      ensures updated ==> GetMover(moverId) == Some(Mover(data))
      ensures !updated ==> movers == old(movers)
      ensures forall k :: k != moverId ==> GetMover(k) == old(GetMover(k))
      ensures movers.Keys == old(movers).Keys
    {
      if moverId in movers {
        movers := movers[moverId := Mover(data)];
        return true;
      }
      return false;
    }

    /** Removes the mover under `moverId`; nothing happens when there is none. */
    method DeleteMover(moverId: Uuid)
      modifies this
      ensures !HasMoverWithId(moverId)
      ensures forall k :: k != moverId ==> GetMover(k) == old(GetMover(k))
      ensures !old(HasMoverWithId(moverId)) ==> movers == old(movers)
      ensures movers == old(movers) - {moverId}
    {
      if moverId in movers {
        movers := movers - {moverId};
      }
    }

    /** The title `mover` is shown under: its type with underscores as spaces,
      title-cased, then ": ", its speed, the unit abbreviation and its
      direction, separated by spaces. An attribute the mover lacks raises an
      AttributeError naming the first one Python reads. */
    static function GetMoverTitle(mover: Mover): (r: Result<string, AttributeError>)
      ensures r.Failure? <==> FirstMissing(TITLE_ATTRIBUTES, mover.attributes).Some?
      ensures r.Failure? ==> r.error == AttributeError(TITLE_ATTRIBUTES[FirstMissing(TITLE_ATTRIBUTES, mover.attributes).value])
    {
      var a := mover.attributes;
      assert TITLE_ATTRIBUTES[1] == "type" && TITLE_ATTRIBUTES[2] == "speed" && TITLE_ATTRIBUTES[3] == "direction";
      if "speed_type" !in a then Failure(AttributeError("speed_type"))
      else if "type" !in a then Failure(AttributeError("type"))
      else if "speed" !in a then Failure(AttributeError("speed"))
      else if "direction" !in a then Failure(AttributeError("direction"))
      else
        var abbrev := SpeedAbbreviation(a["speed_type"]);
        Success(Title(ReplaceChar(a["type"], '_', ' ')) + ": " + a["speed"] + " " + abbrev + " " + a["direction"])
    }

    /** The layout of a successful title: a heading as long as the type, made
      of HeadingChar's characters, then the speed, the abbreviation chosen by
      the speed type and the direction. */
    static lemma GetMoverTitleLayout(mover: Mover)
      requires GetMoverTitle(mover).Success?
      ensures
        var a := mover.attributes;
        var ty := a["type"];
        GetMoverTitle(mover).value ==
          seq(|ty|, i requires 0 <= i < |ty| => HeadingChar(ty, i))
          + ": " + a["speed"] + " " + SpeedAbbreviation(a["speed_type"]) + " " + a["direction"]
    {
    }
  }

  /** The pool of running models, keyed by model id. */
  class ModelManager {
    var runningModels: map<Uuid, MockModel>

    constructor ()
      ensures runningModels == map[]
    {
      runningModels := map[];
    }

    /** The model stored under `modelId`, or DoesNotExist when there is none. */
    function Get(modelId: Uuid): (r: Result<MockModel, DoesNotExist>)
      reads this
      ensures r.Failure? <==> modelId !in runningModels
      ensures r.Success? ==> r.value == runningModels[modelId]
    {
      if modelId !in runningModels then Failure(DoesNotExist)
      else Success(runningModels[modelId])
    }

    /** Whether a model is stored under `modelId`. */
    function Exists(modelId: Uuid): (present: bool)
      reads this
      ensures present <==> Get(modelId).Success?
    {
      modelId in runningModels
    }

    /** Stores a new model, whose id is the fresh `newId`, under its own id. */
    method Create(newId: Uuid) returns (model: MockModel)
      requires newId !in runningModels
      modifies this
      ensures fresh(model) && model.id == newId && model.movers == map[]
      ensures Exists(model.id) && Get(model.id) == Success(model)
      ensures forall k :: k != model.id ==> Get(k) == old(Get(k))
      ensures runningModels == old(runningModels)[model.id := model]
      ensures |runningModels| == |old(runningModels)| + 1
    {
      model := new MockModel(newId);
      runningModels := runningModels[model.id := model];
      assert runningModels.Keys == old(runningModels).Keys + {model.id};
    }

    /** The model stored under `modelId` when `modelId` is given (None stands
      for a falsy id) and present; otherwise a newly created model, stored
      under the fresh `newId`. `created` says which happened. */
    method GetOrCreate(modelId: Option<Uuid>, newId: Uuid) returns (model: MockModel, created: bool)
      requires newId !in runningModels
      modifies this
      ensures created <==> !(modelId.Some? && old(Exists(modelId.value)))
      ensures !created ==> old(Get(modelId.value)) == Success(model) && runningModels == old(runningModels)
      ensures created ==> fresh(model) && model.id == newId && model.movers == map[]
      ensures created ==> runningModels == old(runningModels)[newId := model]
    {
      var found: Option<MockModel> := None;
      created := false;
      if modelId.Some? {
        found := if modelId.value in runningModels then Some(runningModels[modelId.value]) else None;
      }
      if found.None? {
        model := Create(newId);
        created := true;
      } else {
        model := found.value;
      }
    }

    /** Stores `model` under `modelId`, replacing whatever was there. */
    method Add(modelId: Uuid, model: MockModel)
      modifies this
      ensures Get(modelId) == Success(model)
      ensures forall k :: k != modelId ==> Get(k) == old(Get(k))
      ensures runningModels == old(runningModels)[modelId := model]
    {
      runningModels := runningModels[modelId := model];
    }

    /** Removes the model under `modelId`; nothing happens when there is none. */
    method Delete(modelId: Uuid)
      modifies this
      ensures !Exists(modelId)
      ensures forall k :: k != modelId ==> Get(k) == old(Get(k))
      ensures !old(Exists(modelId)) ==> runningModels == old(runningModels)
      ensures runningModels == old(runningModels) - {modelId}
    {
      runningModels := runningModels - {modelId};
    }
  }
}
