/** The EIP-712 typed data a user signs to prove control of an address
    (`msgParams` in handlers/verify.js). Hashing it and recovering the signer
    are done by a foreign library and are parameters of the verifier. */
module TypedMessage {

  /** One member of a struct type: `{ name, type }`. */
  datatype TypedField = TypedField(name: string, fieldType: string)

  /** `{ domain, message, primaryType, types }`, with the domain and message
      objects as maps from member name to (string) value. */
  datatype TypedData = TypedData(
    domain: map<string, string>,
    message: map<string, string>,
    primaryType: string,
    types: map<string, seq<TypedField>>)

  const DomainType: string := "EIP712Domain"

  /** The members `fields` declares are exactly those `values` supplies, once
      each, all of type `string`. */
  predicate Matches(fields: seq<TypedField>, values: map<string, string>) {
    && (forall i :: 0 <= i < |fields| ==> fields[i].fieldType == "string" && fields[i].name in values)
    && (forall i, j :: 0 <= i < j < |fields| ==> fields[i].name != fields[j].name)
    && (forall n :: n in values ==> exists i :: 0 <= i < |fields| && fields[i].name == n)
  }

  /** The typed data can be encoded: the domain and the primary type are
      declared, and each declared struct agrees with the value given for it. */
  predicate WellTyped(m: TypedData) {
    && DomainType in m.types && m.primaryType in m.types
    && m.primaryType != DomainType
    && Matches(m.types[DomainType], m.domain)
    && Matches(m.types[m.primaryType], m.message)
  }

  /** The proof message. It takes no input: neither the handle nor the
      claimed address is part of what is signed. */
  function ProofMessage(): (m: TypedData)
    ensures WellTyped(m)
    ensures m.domain == map["name" := "CyberConnect Verifier", "version" := "1"]
    ensures m.message == map["contents" := "I'm verifying my Twitter account on CyberConnect"]
    ensures m.primaryType == "Permit"
  {
    var m := TypedData(
      map["name" := "CyberConnect Verifier", "version" := "1"],
      map["contents" := "I'm verifying my Twitter account on CyberConnect"],
      "Permit",
      map[DomainType := [TypedField("name", "string"), TypedField("version", "string")],
          "Permit" := [TypedField("contents", "string")]]);
    assert m.types[DomainType][0].name == "name";
    assert m.types[DomainType][1].name == "version";
    assert m.types["Permit"][0].name == "contents";
    m
  }
}
