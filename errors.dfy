/**
 * The error values of the models package: typed errors that compare by type
 * only, and the two field-error structs whose messages name a field.
 */
module Errors {

  // Error type identifiers.
  const InvalidDomain: string := "InvalidDomain"
  const InvalidRecord: string := "InvalidRecord"
  const InvalidRequest: string := "InvalidRequest"
  const InvalidResponse: string := "InvalidResponse"
  const InvalidProtobufMessage: string := "InvalidProtobufMessage"
  const InvalidJSON: string := "InvalidJSON"
  const UnknownError: string := "UnknownError"
  const Unauthorized: string := "Unauthorized"
  const ResourceConflict: string := "ResourceConflict"
  const ResourceNotFound: string := "ResourceNotFound"
  const RouterError: string := "RouterError"
  const ActualLRPCannotBeClaimed: string := "ActualLRPCannotBeClaimed"
  const ActualLRPCannotBeStarted: string := "ActualLRPCannotBeStarted"
  const ActualLRPCannotBeCrashed: string := "ActualLRPCannotBeCrashed"
  const ActualLRPCannotBeFailed: string := "ActualLRPCannotBeFailed"
  const ActualLRPCannotBeRemoved: string := "ActualLRPCannotBeRemoved"
  const ActualLRPCannotBeStopped: string := "ActualLRPCannotBeStopped"

  /** A typed error: a stable kind identifier and a human-readable message. */
  datatype Error = Error(errorType: string, message: string)

  const ErrResourceNotFound := Error(ResourceNotFound, "the requested resource could not be found")
  const ErrBadRequest := Error(InvalidRequest, "the request received is invalid")
  const ErrUnknownError := Error(UnknownError, "the request failed for an unknown reason")
  const ErrSerializeJSON := Error(InvalidJSON, "could not serialize JSON")
  const ErrDeserializeJSON := Error(InvalidJSON, "could not deserialize JSON")
  const ErrActualLRPCannotBeClaimed := Error(ActualLRPCannotBeClaimed, "cannot claim actual LRP")
  const ErrActualLRPCannotBeStarted := Error(ActualLRPCannotBeStarted, "cannot start actual LRP")
  const ErrActualLRPCannotBeCrashed := Error(ActualLRPCannotBeCrashed, "cannot crash actual LRP")
  const ErrActualLRPCannotBeFailed := Error(ActualLRPCannotBeFailed, "cannot fail actual LRP")
  const ErrActualLRPCannotBeRemoved := Error(ActualLRPCannotBeRemoved, "cannot remove actual LRP")
  const ErrActualLRPCannotBeStopped := Error(ActualLRPCannotBeStopped, "cannot stop actual LRP")

  /** The six "cannot be ..." errors of the actual-LRP state machine, in declaration order. */
  const CannotBeErrors: seq<Error> := [
    ErrActualLRPCannotBeClaimed, ErrActualLRPCannotBeStarted, ErrActualLRPCannotBeCrashed,
    ErrActualLRPCannotBeFailed, ErrActualLRPCannotBeRemoved, ErrActualLRPCannotBeStopped
  ]

  /** The Go `error` values this package defines: a typed error or one of the other kinds. */
  datatype GoError =
    | Typed(err: Error)                          // *Error
    | InvalidField(field: string)                // ErrInvalidField
    | InvalidModification(invalidField: string)  // ErrInvalidModification
    | Plain(text: string)                        // errors.New

  const ErrActualLRPGroupInvalid: GoError := Plain("ActualLRPGroup invalid")

  const InvalidFieldPrefix: string := "Invalid field: "
  const InvalidModificationPrefix: string := "attempt to make invalid change to field: "

  /** The text `Error()` returns for each kind of error. */
  function Message(e: GoError): (s: string)
    ensures e.Typed? ==> s == e.err.message
    ensures e.InvalidField? ==> |InvalidFieldPrefix| <= |s| && s[..|InvalidFieldPrefix|] == InvalidFieldPrefix && s[|InvalidFieldPrefix|..] == e.field
    ensures e.InvalidModification? ==>
      |InvalidModificationPrefix| <= |s| && s[..|InvalidModificationPrefix|] == InvalidModificationPrefix && s[|InvalidModificationPrefix|..] == e.invalidField
    ensures e.Plain? ==> s == e.text
  {
    match e
    case Typed(err) => err.message
    case InvalidField(f) => InvalidFieldPrefix + f
    case InvalidModification(f) => InvalidModificationPrefix + f
    case Plain(text) => text
  }

  /** `(*Error).Equal`: the other value is a typed error of the same type; messages are ignored. */
  function Equal(err: Error, other: GoError): (b: bool)
    ensures b ==> other.Typed?
    ensures other.Typed? ==> (b <==> other.err.errorType == err.errorType)
  {
    other.Typed? && other.err.errorType == err.errorType
  }

  /** Equal looks at types only: two typed errors with the same type are equal whatever their messages. */
  lemma EqualIgnoresMessage(err: Error, other: Error)
    ensures Equal(err, Typed(other)) <==> err.errorType == other.errorType
    ensures forall m1, m2 :: Equal(err.(message := m1), Typed(other.(message := m2))) == Equal(err, Typed(other))
  {
  }

  /** On typed errors Equal is reflexive, symmetric and transitive. */
  lemma EqualIsEquivalence(a: Error, b: Error, c: Error)
    ensures Equal(a, Typed(a))
    ensures Equal(a, Typed(b)) ==> Equal(b, Typed(a))
    ensures Equal(a, Typed(b)) && Equal(b, Typed(c)) ==> Equal(a, Typed(c))
  {
  }

  /** The two JSON errors differ but are Equal, as both have type InvalidJSON. */
  lemma SerializeEqualsDeserialize()
    ensures ErrSerializeJSON != ErrDeserializeJSON
    ensures Equal(ErrSerializeJSON, Typed(ErrDeserializeJSON)) && Equal(ErrDeserializeJSON, Typed(ErrSerializeJSON))
  {
  }

  /** A typed error is never Equal to an error of another kind. */
  lemma NeverEqualToUntyped(err: Error, other: GoError)
    requires !other.Typed?
    ensures !Equal(err, other)
  {
  }

  /** Each "cannot be ..." error carries its own type constant, and no two of them are Equal. */
  lemma CannotBeErrorsDistinct()
    ensures CannotBeErrors[0].errorType == ActualLRPCannotBeClaimed && CannotBeErrors[1].errorType == ActualLRPCannotBeStarted
    ensures CannotBeErrors[2].errorType == ActualLRPCannotBeCrashed && CannotBeErrors[3].errorType == ActualLRPCannotBeFailed
    ensures CannotBeErrors[4].errorType == ActualLRPCannotBeRemoved && CannotBeErrors[5].errorType == ActualLRPCannotBeStopped
    ensures forall i, j :: 0 <= i < j < |CannotBeErrors| ==> !Equal(CannotBeErrors[i], Typed(CannotBeErrors[j]))
  {
  }

  /** The field named in an ErrInvalidField message can be read back from it, so different fields give different messages. */
  lemma InvalidFieldMessageInjective(a: string, b: string)
    ensures Message(InvalidField(a)) == Message(InvalidField(b)) ==> a == b
    ensures Message(InvalidModification(a)) == Message(InvalidModification(b)) ==> a == b
  {
    var ma, mb := Message(InvalidField(a)), Message(InvalidField(b));
    assert ma[|InvalidFieldPrefix|..] == a && mb[|InvalidFieldPrefix|..] == b;
    var na, nb := Message(InvalidModification(a)), Message(InvalidModification(b));
    assert na[|InvalidModificationPrefix|..] == a && nb[|InvalidModificationPrefix|..] == b;
  }
}
