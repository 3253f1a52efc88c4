/** The parts of a searchable Eloquent model and of a Scout query builder that
    the adapter reads. The model itself lives in the application; only the
    answers of its methods matter here. */
module Searchable {
  import opened Values

  /** A searchable model instance.
      - searchableAs: the index name (`searchableAs()`)
      - key: the primary key (`getKey()`), an integer or a string
      - document: the indexed document (`toSearchableArray()`)
      - fields: the answer of `searchableFields()`, or None when the model's
        class does not define that method
      Each method is taken to answer; one that raises is not modelled. */
  datatype Model = Model(
    searchableAs: string,
    key: Value,
    document: map<string, Value>,
    fields: Option<seq<string>>)

  /** A Scout query builder: the model it searches and the query text, which
      may be null. */
  datatype Builder = Builder(model: Model, query: Option<string>)
}
