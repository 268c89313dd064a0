/** The flat dictionary layout `LegalLogicNode.to_dict` writes: 27 keys in a fixed order. */
module NodeDict {
  import opened JsonValue

  /** The keys `to_dict` writes, in its order, paired with the values in `v`. */
  function DictOf(v: seq<Json>): map<string, Json>
    requires |v| == 27
  {
    map[
      "node_id" := v[0],
      "citation" := v[1],
      "source_type" := v[2],
      "authority_weight" := v[3],
      "what" := v[4],
      "which" := v[5],
      "if_then" := v[6],
      "can_must" := v[7],
      "given" := v[8],
      "why" := v[9],
      "parent_id" := v[10],
      "children_ids" := v[11],
      "interprets_ids" := v[12],
      "extends_ids" := v[13],
      "overruled_by_ids" := v[14],
      "distinguishes_ids" := v[15],
      "conflicts_with_ids" := v[16],
      "harmonizes_with_ids" := v[17],
      "effective_date" := v[18],
      "overruled_date" := v[19],
      "is_valid" := v[20],
      "full_text" := v[21],
      "module_id" := v[22],
      "version" := v[23],
      "validated_by" := v[24],
      "validated_date" := v[25],
      "metadata" := v[26]]
  }

  // Each lookup in the 27-key display must rule out the keys written after it, so the
  // lookups are proved a few at a time.

  lemma DictOfKeys1(v: seq<Json>)
    requires |v| == 27
    ensures "node_id" in DictOf(v) && DictOf(v)["node_id"] == v[0]
      && "citation" in DictOf(v) && DictOf(v)["citation"] == v[1]
  {
  }

  lemma DictOfKeys2(v: seq<Json>)
    requires |v| == 27
    ensures "source_type" in DictOf(v) && DictOf(v)["source_type"] == v[2]
      && "authority_weight" in DictOf(v) && DictOf(v)["authority_weight"] == v[3]
  {
  }

  lemma DictOfKeys3(v: seq<Json>)
    requires |v| == 27
    ensures "what" in DictOf(v) && DictOf(v)["what"] == v[4]
      && "which" in DictOf(v) && DictOf(v)["which"] == v[5]
  {
  }

  lemma DictOfKeys4(v: seq<Json>)
    requires |v| == 27
    ensures "if_then" in DictOf(v) && DictOf(v)["if_then"] == v[6]
      && "can_must" in DictOf(v) && DictOf(v)["can_must"] == v[7]
  {
  }

  lemma DictOfKeys5(v: seq<Json>)
    requires |v| == 27
    ensures "given" in DictOf(v) && DictOf(v)["given"] == v[8]
      && "why" in DictOf(v) && DictOf(v)["why"] == v[9]
  {
  }

  lemma DictOfKeys6(v: seq<Json>)
    requires |v| == 27
    ensures "parent_id" in DictOf(v) && DictOf(v)["parent_id"] == v[10]
      && "children_ids" in DictOf(v) && DictOf(v)["children_ids"] == v[11]
      && "interprets_ids" in DictOf(v) && DictOf(v)["interprets_ids"] == v[12]
  {
  }

  lemma DictOfKeys7(v: seq<Json>)
    requires |v| == 27
    ensures "extends_ids" in DictOf(v) && DictOf(v)["extends_ids"] == v[13]
      && "overruled_by_ids" in DictOf(v) && DictOf(v)["overruled_by_ids"] == v[14]
      && "distinguishes_ids" in DictOf(v) && DictOf(v)["distinguishes_ids"] == v[15]
  {
  }

  lemma DictOfKeys8(v: seq<Json>)
    requires |v| == 27
    ensures "conflicts_with_ids" in DictOf(v) && DictOf(v)["conflicts_with_ids"] == v[16]
      && "harmonizes_with_ids" in DictOf(v) && DictOf(v)["harmonizes_with_ids"] == v[17]
      && "effective_date" in DictOf(v) && DictOf(v)["effective_date"] == v[18]
      && "overruled_date" in DictOf(v) && DictOf(v)["overruled_date"] == v[19]
  {
  }

  lemma DictOfKeys9(v: seq<Json>)
    requires |v| == 27
    ensures "is_valid" in DictOf(v) && DictOf(v)["is_valid"] == v[20]
      && "full_text" in DictOf(v) && DictOf(v)["full_text"] == v[21]
      && "module_id" in DictOf(v) && DictOf(v)["module_id"] == v[22]
      && "version" in DictOf(v) && DictOf(v)["version"] == v[23]
      && "validated_by" in DictOf(v) && DictOf(v)["validated_by"] == v[24]
      && "validated_date" in DictOf(v) && DictOf(v)["validated_date"] == v[25]
      && "metadata" in DictOf(v) && DictOf(v)["metadata"] == v[26]
  {
  }

  /** `to_dict` writes no timestamps of its own. */
  lemma NoTimestampKeys(v: seq<Json>)
    requires |v| == 27
    ensures "created_at" !in DictOf(v) && "updated_at" !in DictOf(v)
  {
  }
}
