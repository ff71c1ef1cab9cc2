/** One runtime lookup of a Variable or Connection that a Dag file makes (`_compat/introspection.py`:
    `SecretsLookup`), as the corpus and its shards carry it; the file and line may be unknown. */
module Lookups {
  import opened Prelude

  datatype Lookup = Lookup(kind: string, key: string, file: Option<string>, line: Option<int>)
}
