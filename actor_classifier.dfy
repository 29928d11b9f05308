/**
 * The routing key of the operations server's actor system: an immutable
 * value that says whether a message is meant for the global actor.
 */
module ActorRoute {

  /** `ActorClassifier` holds one final field, `globalActor`. */
  datatype ActorClassifier = ActorClassifier(globalActor: bool)

  /**
   * What `equals(Object)` can be handed: null, another `ActorClassifier`,
   * or an object of some other class (named by its class).
   */
  datatype JavaObject = Null | Classifier(classifier: ActorClassifier) | OtherObject(className: string)

  const Prime: int := 31

  /** Smallest and one past the largest Java `int`. */
  const IntMin: int := -0x8000_0000
  const IntLimit: int := 0x8000_0000

  /** The constructor stores its argument. */
  function New(globalActor: bool): (c: ActorClassifier)
    ensures c.globalActor == globalActor
  {
    ActorClassifier(globalActor)
  }

  function IsGlobalActor(c: ActorClassifier): bool
  {
    c.globalActor
  }

  /** `hashCode()`: the Eclipse-generated formula over the one boolean field. */
  function HashCode(c: ActorClassifier): (h: int)
    ensures h == (if c.globalActor then 1262 else 1268)
    ensures IntMin <= h < IntLimit
  {
    var result := 1;
    Prime * result + (if c.globalActor then 1231 else 1237)
  }

  /** `equals(Object)`: null and objects of another class are unequal; otherwise compare the flag. */
  function Equals(c: ActorClassifier, obj: JavaObject): bool
  {
    match obj
    case Null => false
    case OtherObject(_) => false
    case Classifier(other) => c.globalActor == other.globalActor
  }

  /** `isGlobalActor()` returns exactly what the constructor was given. */
  lemma IsGlobalActorReturnsArgument(b: bool)
    ensures IsGlobalActor(New(b)) == b
  {
  }

  /** `equals` holds exactly for a classifier with the same flag, and never for null. */
  lemma EqualsExactly(c: ActorClassifier, obj: JavaObject)
    ensures Equals(c, obj) <==> obj.Classifier? && obj.classifier.globalActor == c.globalActor
    ensures !Equals(c, Null)
  {
  }

  /** `equals` is an equivalence relation on classifiers. */
  lemma EqualsIsEquivalence(a: ActorClassifier, b: ActorClassifier, c: ActorClassifier)
    ensures Equals(a, Classifier(a))
    ensures Equals(a, Classifier(b)) ==> Equals(b, Classifier(a))
    ensures Equals(a, Classifier(b)) && Equals(b, Classifier(c)) ==> Equals(a, Classifier(c))
  {
  }

  /**
   * The `hashCode` contract, both ways: equal classifiers hash alike, and
   * classifiers with different flags hash differently.
   */
  lemma HashCodeAgreesWithEquals(a: ActorClassifier, b: ActorClassifier)
    ensures Equals(a, Classifier(b)) <==> HashCode(a) == HashCode(b)
  {
  }
}
