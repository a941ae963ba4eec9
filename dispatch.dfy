/** The pieces `__call` uses to forward an unknown method: PHP's case-insensitive method
    lookup and the `scope<Method>` naming rule. */
module Dispatch {
  import opened Php

  function LowerChar(c: char): char
  {
    if 'A' <= c <= 'Z' then (c as int + 32) as char else c
  }

  function UpperChar(c: char): char
  {
    if 'a' <= c <= 'z' then (c as int - 32) as char else c
  }

  /** ASCII lower case, the form in which PHP compares method names. */
  function Lower(s: string): (r: string)
    ensures |r| == |s|
  {
    seq(|s|, i requires 0 <= i < |s| => LowerChar(s[i]))
  }

  /** `ucfirst`: the first letter in upper case. */
  function Ucfirst(s: string): string
  {
    if s == [] then [] else [UpperChar(s[0])] + s[1..]
  }

  /** `method_exists`: some declared method has the name, ignoring case. */
  predicate HasMethod(methods: set<string>, name: string)
  {
    exists m :: m in methods && Lower(m) == Lower(name)
  }

  /** `'scope'.ucfirst($method)`. */
  function ScopeName(name: string): string
  {
    "scope" + Ucfirst(name)
  }

  /** Since PHP ignores case in method names, `ucfirst` does not change which scope is found. */
  lemma ScopeLookupIgnoresUcfirst(methods: set<string>, name: string)
    ensures HasMethod(methods, ScopeName(name)) <==> HasMethod(methods, "scope" + name)
  {
    assert Lower(ScopeName(name)) == Lower("scope" + name) by {
      if name != [] {
        assert LowerChar(UpperChar(name[0])) == LowerChar(name[0]);
      }
    }
  }

  /** What a forwarded builder method returned. */
  datatype BuilderResult = AnObject | AValue(v: Value)

  /** What `__call` does with a call. */
  datatype CallOutcome = ReturnsThis | Returns(v: Value) | Throws(e: Exception)

  function NoSuchMethod(name: string): Exception
  {
    Exception(RuntimeException, "no such method: " + name)
  }

  /** `DaoArray::__call`: a `scope<Method>` of the DAO wins, then a method of the query builder
      (whose object results are replaced by the DAO itself), else a RuntimeException.
      `forwarded` is what the builder method returns. */
  function ArrayCall(daoMethods: set<string>, builderMethods: set<string>, name: string,
                     forwarded: BuilderResult): (r: CallOutcome)
    ensures r.Throws? <==> !HasMethod(daoMethods, ScopeName(name)) && !HasMethod(builderMethods, name)
    ensures HasMethod(daoMethods, ScopeName(name)) ==> r == ReturnsThis
    ensures r.Returns? ==> forwarded == AValue(r.v)
  {
    if HasMethod(daoMethods, ScopeName(name)) then ReturnsThis
    else if HasMethod(builderMethods, name) then
      (if forwarded.AnObject? then ReturnsThis else Returns(forwarded.v))
    else Throws(NoSuchMethod(name))
  }

  /** `Dao::__call`: as `DaoArray::__call`, but every forwarded call returns the DAO. */
  function DaoCall(daoMethods: set<string>, builderMethods: set<string>, name: string): (r: CallOutcome)
    ensures r.Throws? <==> !HasMethod(daoMethods, ScopeName(name)) && !HasMethod(builderMethods, name)
    ensures !r.Returns?
  {
    if HasMethod(daoMethods, ScopeName(name)) || HasMethod(builderMethods, name) then ReturnsThis
    else Throws(NoSuchMethod(name))
  }

  /** A call fails exactly when neither a scope nor a builder method answers it, and then with
      "no such method"; a scope shadows a builder method of the same name. */
  lemma ArrayCallOutcomes(daoMethods: set<string>, builderMethods: set<string>, name: string,
                          forwarded: BuilderResult)
    ensures ArrayCall(daoMethods, builderMethods, name, forwarded).Throws?
        <==> !HasMethod(daoMethods, "scope" + name) && !HasMethod(builderMethods, name)
    ensures ArrayCall(daoMethods, builderMethods, name, forwarded).Throws? ==>
              ArrayCall(daoMethods, builderMethods, name, forwarded).e
              == Exception(RuntimeException, "no such method: " + name)
    ensures HasMethod(daoMethods, "scope" + name) ==>
              ArrayCall(daoMethods, builderMethods, name, forwarded) == ReturnsThis
    ensures ArrayCall(daoMethods, builderMethods, name, forwarded).Returns? <==>
              !HasMethod(daoMethods, "scope" + name) && HasMethod(builderMethods, name) && forwarded.AValue?
  {
    ScopeLookupIgnoresUcfirst(daoMethods, name);
  }

  /** The two DAOs answer and fail on the same calls; `Dao` always returns itself, so its
      forwarded calls chain, while `DaoArray` passes a scalar result on. */
  lemma DaoCallChains(daoMethods: set<string>, builderMethods: set<string>, name: string,
                      forwarded: BuilderResult)
    ensures DaoCall(daoMethods, builderMethods, name).Throws?
        <==> ArrayCall(daoMethods, builderMethods, name, forwarded).Throws?
    ensures !DaoCall(daoMethods, builderMethods, name).Returns?
    ensures forwarded.AnObject? && !ArrayCall(daoMethods, builderMethods, name, forwarded).Throws? ==>
              ArrayCall(daoMethods, builderMethods, name, forwarded) == DaoCall(daoMethods, builderMethods, name)
  {
  }
}
