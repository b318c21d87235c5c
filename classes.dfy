/** Data models: the fixed category choices and the resource record. */
module Classes {

  /** An application-command choice: a display `name` and the `value` sent back. */
  datatype Choice = Choice(name: string, value: string)

  /** The category choices, in the order the commands offer them. */
  const CategoryChoices: seq<Choice> := [
    Choice("Cryptography", "crypto"),
    Choice("Dev/IA", "dev"),
    Choice("Forensics", "forensics"),
    Choice("Hardware", "hardware"),
    Choice("Miscellaneous", "misc"),
    Choice("OSINT", "osint"),
    Choice("Pwn", "pwn"),
    Choice("Reverse", "reverse"),
    Choice("System", "system"),
    Choice("Web", "web"),
    Choice("Web3", "web3")
  ]

  /** A resource's link and the database id of its category. */
  datatype Resource = Resource(url: string, categoryId: int)

  /** The positional tuple a `Resource` unpacks to (field declaration order). */
  function AsTuple(resource: Resource): (t: (string, int))
    ensures resource == Resource(t.0, t.1)
  {
    (resource.url, resource.categoryId)
  }

  lemma CategoryChoicesCount()
    ensures |CategoryChoices| == 11
  {
  }

  /** No two choices share a value, so each value names one category. */
  lemma CategoryValuesDistinct()
    ensures forall i, j :: 0 <= i < j < |CategoryChoices| ==> CategoryChoices[i].value != CategoryChoices[j].value
  {
  }

  /** No two choices share a display name. */
  lemma CategoryNamesDistinct()
    ensures forall i, j :: 0 <= i < j < |CategoryChoices| ==> CategoryChoices[i].name != CategoryChoices[j].name
  {
  }
}
