/** An aspect: a pointcut that scores (method, target) pairs and the ordered
    list of advices a proxy runs around a matched call. */
module Aop {

  /** A reflected Java method, as handed to the pointcut. */
  datatype JavaMethod = JavaMethod(declaringClass: string, name: string, paramTypes: seq<string>)

  /** The object a proxied call is made on. */
  datatype Target = Target(id: nat)

  /** An interception behaviour. `NoOpAdvice` is the shared do-nothing
      sentinel; every other advice is identified by an id. */
  datatype Advice = NoOpAdvice | UserAdvice(id: nat)

  /** The matching strategy: its score for a method on a target. */
  type Pointcut = (JavaMethod, Target) -> int

  class Aspect {
    const pointcut: Pointcut
    var advices: seq<Advice>

    /** The sentinel is always present and always first. */
    ghost predicate Valid()
      reads this
    {
      |advices| >= 1 && advices[0] == NoOpAdvice
    }

    /** Seeds the list with the sentinel, then appends the given advices in order. */
    constructor (pointcut: Pointcut, advices: array<Advice>)
      ensures Valid()
      ensures this.pointcut == pointcut
      ensures this.advices == [NoOpAdvice] + advices[..]
    {
      this.pointcut := pointcut;
      this.advices := [NoOpAdvice];
      new;
      AddAdvice(advices);
    }

    /** Appends the given advices in order; earlier entries are unchanged. */
    method AddAdvice(more: array<Advice>)
      requires Valid()
      modifies this
      ensures Valid()
      ensures advices == old(advices) + more[..]
      ensures |advices| == old(|advices|) + more.Length
      ensures forall i :: 0 <= i < old(|advices|) ==> advices[i] == old(advices[i])
    {
      advices := advices + more[..];
    }

    /** A fresh array holding the advice list, sentinel first, in order. */
    method ToArrayAdvice() returns (callbacks: array<Advice>)
      requires Valid()
      ensures fresh(callbacks)
      ensures callbacks[..] == advices
      ensures callbacks.Length >= 1 && callbacks[0] == NoOpAdvice
    {
      var current := advices;
      callbacks := new Advice[|current|](i requires 0 <= i < |current| => current[i]);
    }

    /** The pointcut's own score for the method on the target. */
    function Matches(m: JavaMethod, t: Target): (score: int)
      ensures score == pointcut(m, t)
    {
      pointcut(m, t)
    }
  }

  /** Every prior `AddAdvice` call is reflected, in call order, after the
      sentinel and the constructor's advices; the pointcut is the one given. */
  method ConfigureAspect(pointcut: Pointcut, first: array<Advice>, second: array<Advice>, third: array<Advice>)
    returns (aspect: Aspect, callbacks: array<Advice>)
    ensures aspect.pointcut == pointcut
    ensures callbacks[..] == [NoOpAdvice] + first[..] + second[..] + third[..]
  {
    aspect := new Aspect(pointcut, first);
    aspect.AddAdvice(second);
    aspect.AddAdvice(third);
    callbacks := aspect.ToArrayAdvice();
  }
}
