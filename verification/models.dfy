/**
 * The records of core/models.py and the defaults their `from_dict`
 * constructors fill in.
 *
 * A Python dataclass stores whatever object it is given, so the fields hold a
 * dynamic `Value`; the dictionary is a map from key to `Value` whose keys may
 * be missing. A missing required key is the `KeyError` Python raises.
 * Timestamps keep the raw value that `datetime.fromisoformat` would parse.
 */
module Models {
  import opened Wrappers
  import Tags

  /** A Python value as it appears in a database row. */
  datatype Value = Null | Bool(b: bool) | Int(i: int) | Real(r: real) | Str(s: string)

  type Dict = map<string, Value>

  datatype Error = KeyError(key: string) | AttributeError(field: string)

  /** Python truthiness of a row value. */
  predicate Truthy(v: Value) {
    match v
    case Null => false
    case Bool(b) => b
    case Int(i) => i != 0
    case Real(r) => r != 0.0
    case Str(s) => s != []
  }

  /** `data.get(key, default)`. */
  function Get(data: Dict, key: string, default: Value): (v: Value)
    ensures key in data ==> v == data[key]
    ensures key !in data ==> v == default
  {
    if key in data then data[key] else default
  }

  /** `data[key]`, which raises `KeyError` when the key is missing. */
  function Index(data: Dict, key: string): (r: Result<Value, Error>)
    ensures r.Success? <==> key in data
    ensures r.Success? ==> r.value == data[key]
    ensures r.Failure? ==> r.error == KeyError(key)
  {
    if key in data then Success(data[key]) else Failure(KeyError(key))
  }

  /** An optional timestamp: kept when the key holds a truthy value, otherwise none. The ISO parse is left out. */
  function OptionalTimestamp(data: Dict, key: string): (t: Option<Value>)
    ensures t.Some? <==> key in data && Truthy(data[key])
    ensures t.Some? ==> t.value == data[key]
  {
    if Truthy(Get(data, key, Null)) then Some(data[key]) else None
  }

  // ---------------------------------------------------------------------------
  // Deck

  datatype Deck = Deck(
    id: Value,
    name: Value,
    description: Value,
    categoryId: Value,
    categoryName: Value,
    categoryColor: Value,
    cardCount: Value,
    dueCount: Value,
    createdAt: Option<Value>)

  /**
   * `Deck.from_dict`. It fails exactly when a required key is missing, naming
   * the first one in the order the keyword arguments are evaluated.
   */
  function DeckFromDict(data: Dict): (r: Result<Deck, Error>)
    ensures r.Success? <==> "id" in data && "name" in data && "category_id" in data
    ensures r.Failure? ==>
              r.error == KeyError(if "id" !in data then "id"
                                  else if "name" !in data then "name"
                                  else "category_id")
    ensures r.Success? ==>
              && r.value.id == data["id"]
              && r.value.name == data["name"]
              && r.value.categoryId == data["category_id"]
    ensures r.Success? ==>
              && ("description" !in data ==> r.value.description == Str(""))
              && ("category_name" !in data ==> r.value.categoryName == Null)
              && ("category_color" !in data ==> r.value.categoryColor == Null)
              && ("card_count" !in data ==> r.value.cardCount == Int(0))
              && ("due_count" !in data ==> r.value.dueCount == Int(0))
              && ("created_at" !in data ==> r.value.createdAt == None)
    ensures r.Success? ==>
              && ("description" in data ==> r.value.description == data["description"])
              && ("category_name" in data ==> r.value.categoryName == data["category_name"])
              && ("category_color" in data ==> r.value.categoryColor == data["category_color"])
              && ("card_count" in data ==> r.value.cardCount == data["card_count"])
              && ("due_count" in data ==> r.value.dueCount == data["due_count"])
    ensures r.Success? ==> r.value.createdAt == OptionalTimestamp(data, "created_at")
  {
    var id :- Index(data, "id");
    var name :- Index(data, "name");
    var description := Get(data, "description", Str(""));
    var categoryId :- Index(data, "category_id");
    Success(Deck(
      id, name, description, categoryId,
      Get(data, "category_name", Null),
      Get(data, "category_color", Null),
      Get(data, "card_count", Int(0)),
      Get(data, "due_count", Int(0)),
      OptionalTimestamp(data, "created_at")))
  }

  // ---------------------------------------------------------------------------
  // Card

  /** The dataclass default of `Card.ease_factor`, the same 2.5 the scheduler starts from. */
  const DefaultEaseFactor: real := 2.5

  datatype Card = Card(
    id: Value,
    deckId: Value,
    question: Value,
    answer: Value,
    example: Value,
    tags: Value,
    difficulty: Value,
    easeFactor: Value,
    interval: Value,
    repetitions: Value,
    nextReview: Value,
    createdAt: Option<Value>,
    updatedAt: Option<Value>)

  /**
   * `Card.from_dict`. It fails exactly when a required key is missing, naming
   * the first one in the order the keyword arguments are evaluated.
   */
  function CardFromDict(data: Dict): (r: Result<Card, Error>)
    ensures r.Success? <==> "id" in data && "deck_id" in data && "question" in data && "answer" in data
    ensures r.Failure? ==>
              r.error == KeyError(if "id" !in data then "id"
                                  else if "deck_id" !in data then "deck_id"
                                  else if "question" !in data then "question"
                                  else "answer")
    ensures r.Success? ==>
              && r.value.id == data["id"]
              && r.value.deckId == data["deck_id"]
              && r.value.question == data["question"]
              && r.value.answer == data["answer"]
    ensures r.Success? ==>
              && ("example" !in data ==> r.value.example == Str(""))
              && ("tags" !in data ==> r.value.tags == Str(""))
              && ("difficulty" !in data ==> r.value.difficulty == Int(0))
              && ("ease_factor" !in data ==> r.value.easeFactor == Real(DefaultEaseFactor))
              && ("interval" !in data ==> r.value.interval == Int(0))
              && ("repetitions" !in data ==> r.value.repetitions == Int(0))
              && ("next_review" !in data ==> r.value.nextReview == Null)
              && ("created_at" !in data ==> r.value.createdAt == None)
              && ("updated_at" !in data ==> r.value.updatedAt == None)
    ensures r.Success? ==>
              && ("example" in data ==> r.value.example == data["example"])
              && ("tags" in data ==> r.value.tags == data["tags"])
              && ("difficulty" in data ==> r.value.difficulty == data["difficulty"])
              && ("ease_factor" in data ==> r.value.easeFactor == data["ease_factor"])
              && ("interval" in data ==> r.value.interval == data["interval"])
              && ("repetitions" in data ==> r.value.repetitions == data["repetitions"])
              && ("next_review" in data ==> r.value.nextReview == data["next_review"])
    ensures r.Success? ==> r.value.createdAt == OptionalTimestamp(data, "created_at")
    ensures r.Success? ==> r.value.updatedAt == OptionalTimestamp(data, "updated_at")
  {
    var id :- Index(data, "id");
    var deckId :- Index(data, "deck_id");
    var question :- Index(data, "question");
    var answer :- Index(data, "answer");
    Success(Card(
      id, deckId, question, answer,
      Get(data, "example", Str("")),
      Get(data, "tags", Str("")),
      Get(data, "difficulty", Int(0)),
      Get(data, "ease_factor", Real(DefaultEaseFactor)),
      Get(data, "interval", Int(0)),
      Get(data, "repetitions", Int(0)),
      Get(data, "next_review", Null),
      OptionalTimestamp(data, "created_at"),
      OptionalTimestamp(data, "updated_at")))
  }

  /**
   * `Card.get_tags_list`. Calling `split` on a `tags` value that is not a
   * string (a NULL column, say) raises `AttributeError`.
   */
  function GetTagsList(card: Card): (r: Result<seq<string>, Error>)
    ensures r.Success? <==> card.tags.Str?
    ensures r.Failure? ==> r.error == AttributeError("split")
    ensures r.Success? ==> forall i :: 0 <= i < |r.value| ==> r.value[i] != []
    ensures r.Success? ==> forall i :: 0 <= i < |r.value| ==> Tags.IsStripped(r.value[i])
    ensures r.Success? ==> |r.value| <= Tags.CountCommas(card.tags.s) + 1
  {
    match card.tags
    case Str(s) => Success(Tags.TagsList(s))
    case _ => Failure(AttributeError("split"))
  }

  /** A card built without a `tags` key has the default empty tag string and no tags. */
  lemma CardWithoutTagsHasNoTags(data: Dict)
    requires "tags" !in data
    requires CardFromDict(data).Success?
    ensures GetTagsList(CardFromDict(data).value) == Success([])
  {
    Tags.DefaultTagsEmpty();
  }

  /** A row holding only the required keys gets every scheduling default. */
  lemma FreshCardDefaults(id: Value, deckId: Value, question: Value, answer: Value)
    ensures var data := map["id" := id, "deck_id" := deckId, "question" := question, "answer" := answer];
            var r := CardFromDict(data);
            && r.Success?
            && r.value.easeFactor == Real(2.5)
            && r.value.interval == Int(0)
            && r.value.repetitions == Int(0)
            && r.value.nextReview == Null
  {
  }
}
