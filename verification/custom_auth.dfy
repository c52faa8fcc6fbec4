/**
 * chainlit_app/inject_custom_auth.py: registering a custom OAuth provider
 * in Chainlit's shared provider list, and the random secret generator. The
 * list may be missing altogether (`providers is None`). Randomness is a
 * parameter: `pick(i)` is the position `secrets.choice` draws for the
 * i-th character.
 */
module CustomAuth {
  import opened Wrappers

  /** The alphabet of secrets: ASCII letters, digits and fifteen punctuation marks. */
  const Chars: string := "abcdefghijklmnopqrstuvwxyzABCDEFGHIJKLMNOPQRSTUVWXYZ0123456789$%*,-./:=>?@^_~"

  /** `random_secret(length=64)`: `length` characters, each one drawn from the alphabet. */
  function RandomSecret(length: int := 64, pick: nat -> nat): (r: string)
    ensures |r| == if length < 0 then 0 else length
    ensures forall i :: 0 <= i < |r| ==> r[i] in Chars && r[i] == Chars[pick(i) % |Chars|]
  {
    if length <= 0 then "" else seq(length, i requires 0 <= i < length => Chars[pick(i) % |Chars|])
  }

  /** Without a length, the secret has 64 characters. */
  lemma DefaultSecretLength(pick: nat -> nat)
    ensures |RandomSecret(pick := pick)| == 64
  {
  }

  /** A provider instance; only its id matters here. */
  datatype Provider = Provider(id: string)

  /** What `add_custom_oauth_provider` did: appended, found the id already there, or raised on a missing list. */
  datatype AddOutcome = Added | AlreadyPresent | NoProviderList

  predicate HasId(ps: seq<Provider>, id: string)
  {
    exists i :: 0 <= i < |ps| && ps[i].id == id
  }

  /** `provider_id_in_instance_list`: False without a list, else whether some provider has the id. */
  function ProviderIdInList(providers: Option<seq<Provider>>, id: string): (r: bool)
    ensures providers.None? ==> !r
    ensures providers.Some? ==> (r <==> HasId(providers.value, id))
  {
    providers.Some? && HasId(providers.value, id)
  }

  /** The number of providers carrying the id. */
  function CountId(ps: seq<Provider>, id: string): (n: nat)
    ensures n <= |ps|
    ensures n == 0 <==> !HasId(ps, id)
  {
    if |ps| == 0 then 0
    else
      var init := ps[..|ps| - 1];
      var n := CountId(init, id) + if ps[|ps| - 1].id == id then 1 else 0;
      assert HasId(ps, id) <==> HasId(init, id) || ps[|ps| - 1].id == id by {
        if HasId(init, id) {
          var i :| 0 <= i < |init| && init[i].id == id;
          assert ps[i].id == id;
        }
      }
      n
  }

  /** Chainlit's module-level `providers` list. */
  class Registry {
    var providers: Option<seq<Provider>>

    constructor(providers: Option<seq<Provider>>)
      ensures this.providers == providers
    {
      this.providers := providers;
    }

    /**
     * `add_custom_oauth_provider`: the instance is appended exactly when
     * the id is not found; with no list the check says "not found" and the
     * append raises, leaving nothing changed.
     */
    method AddCustomOAuthProvider(id: string, instance: Provider) returns (r: AddOutcome)
      modifies this
      ensures old(providers).None? ==> r == NoProviderList && providers == old(providers)
      ensures old(providers).Some? && HasId(old(providers).value, id) ==> r == AlreadyPresent && providers == old(providers)
      ensures old(providers).Some? && !HasId(old(providers).value, id) ==> r == Added && providers == Some(old(providers).value + [instance])
      ensures providers == AddProvider(old(providers), id, instance)
    {
      if !ProviderIdInList(providers, id) {
        if providers.None? {
          return NoProviderList;
        }
        providers := Some(providers.value + [instance]);
        return Added;
      }
      r := AlreadyPresent;
    }
  }

  /** The list after `add_custom_oauth_provider`, as a value. */
  function AddProvider(providers: Option<seq<Provider>>, id: string, instance: Provider): Option<seq<Provider>>
  {
    if ProviderIdInList(providers, id) || providers.None? then providers else Some(providers.value + [instance])
  }

  /** Adding an instance under its own id, once or twice, leaves exactly one provider with that id. */
  lemma AddTwiceOnce(ps: seq<Provider>, instance: Provider)
    requires !HasId(ps, instance.id)
    ensures var once := AddProvider(Some(ps), instance.id, instance);
      && once.Some? && CountId(once.value, instance.id) == 1
      && AddProvider(once, instance.id, instance) == once
  {
    var once := ps + [instance];
    assert once[..|once| - 1] == ps;
    assert once[|once| - 1].id == instance.id;
    assert HasId(once, instance.id);
  }
}
