/** The names messages travel under: two tables kept inverse on declared classes. */
module MessageRegistry {
  import opened Envelopes

  /** A class, by its module and qualified name. Two classes may share both; `id` tells them apart. */
  datatype Class = Class(id: nat, module_: string, qualname: string)

  datatype Error = NameTaken(name: string) | UnknownMessageName(name: string)

  function DefaultName(c: Class): string {
    c.module_ + ":" + c.qualname
  }

  datatype Tables = Tables(nameOf: map<Class, string>, typeOf: map<string, Class>) {

    function Name(c: Class): string {
      if c in nameOf then nameOf[c] else DefaultName(c)
    }

    function TypeFor(name: string): Option<Class> {
      if name in typeOf then Some(typeOf[name]) else None
    }

    /** Every declared class is found under the name it travels by, and only declared classes are found. */
    ghost predicate Inverse() {
      && (forall c :: c in nameOf ==> nameOf[c] in typeOf && typeOf[nameOf[c]] == c)
      && (forall n :: n in typeOf ==> typeOf[n] in nameOf)
    }

    predicate Refuses(name: string, c: Class) {
      name in typeOf && typeOf[name] != c
    }

    function Claimed(name: string, c: Class): Tables {
      if Refuses(name, c) then this else Tables(nameOf[c := name], typeOf[name := c])
    }

    /** `register_message`: an explicit name is claimed, a default one only by a class not declared yet. */
    function Registered(c: Class, name: Option<string>): Tables {
      if name.Some? then Claimed(name.value, c)
      else if c in nameOf then this
      else Claimed(DefaultName(c), c)
    }
  }

  class Registry {
    var nameByType: map<Class, string>
    var typeByName: map<string, Class>
    var transportsByType: map<Class, seq<string>>

    constructor ()
      ensures Model() == Tables(map[], map[]) && Model().Inverse() && transportsByType == map[]
    {
      nameByType, typeByName, transportsByType := map[], map[], map[];
    }

    ghost function Model(): Tables
      reads this
    {
      Tables(nameByType, typeByName)
    }

    method Claim(name: string, c: Class) returns (error: Option<Error>)
      requires Model().Inverse()
      modifies this
      ensures Model().Inverse() && Model() == old(Model()).Claimed(name, c)
      ensures error == if old(Model()).Refuses(name, c) then Some(NameTaken(name)) else None
      ensures transportsByType == old(transportsByType)
    {
      if name in typeByName && typeByName[name] != c {
        return Some(NameTaken(name));
      }
      nameByType := nameByType[c := name];
      typeByName := typeByName[name := c];
      error := None;
    }

    /** A refused name leaves everything as it was; no transports given leaves those declared before. */
    method RegisterMessage(c: Class, name: Option<string>, transports: seq<string>) returns (error: Option<Error>)
      requires Model().Inverse()
      modifies this
      ensures Model().Inverse() && Model() == old(Model()).Registered(c, name)
      ensures error == if name.Some? && old(Model()).Refuses(name.value, c) then Some(NameTaken(name.value))
                       else if name.None? && c !in old(nameByType) && old(Model()).Refuses(DefaultName(c), c) then Some(NameTaken(DefaultName(c)))
                       else None
      ensures error.Some? ==> Model() == old(Model()) && transportsByType == old(transportsByType)
      ensures error.None? ==>
                c in nameByType
                && nameByType[c] == if name.Some? then name.value
                                    else if c in old(nameByType) then old(nameByType)[c] else DefaultName(c)
      ensures forall x :: x != c ==> (x in nameByType <==> x in old(nameByType)) && (x in nameByType ==> nameByType[x] == old(nameByType)[x])
      ensures error.None? ==>
                transportsByType == if transports == [] then old(transportsByType) else old(transportsByType)[c := transports]
    {
      error := None;
      if name.Some? {
        error := Claim(name.value, c);
      } else if c !in nameByType {
        error := Claim(DefaultName(c), c);
      }
      if error.None? && transports != [] {
        transportsByType := transportsByType[c := transports];
      }
    }

    /** `transports_of`: those of the first class along the order that declared any. */
    method TransportsOf(mro: seq<Class>) returns (transports: seq<string>)
      ensures forall i :: 0 <= i < |mro| && Declares(mro[i]) && (forall j :: 0 <= j < i ==> !Declares(mro[j])) ==>
                transports == transportsByType[mro[i]]
      ensures (forall i :: 0 <= i < |mro| ==> !Declares(mro[i])) ==> transports == []
    {
      for i := 0 to |mro|
        invariant forall j :: 0 <= j < i ==> !Declares(mro[j])
      {
        if Declares(mro[i]) {
          return transportsByType[mro[i]];
        }
      }
      transports := [];
    }

    predicate Declares(c: Class)
      reads this
    {
      c in transportsByType && transportsByType[c] != []
    }
  }

  function History(t: Tables, registrations: seq<(Class, Option<string>)>): Tables
    decreases |registrations|
  {
    if registrations == [] then t
    else History(t.Registered(registrations[0].0, registrations[0].1), registrations[1..])
  }

  lemma {:induction false} HistoryKeepsInverse(t: Tables, registrations: seq<(Class, Option<string>)>)
    requires t.Inverse()
    ensures History(t, registrations).Inverse()
    decreases |registrations|
  {
    if registrations != [] {
      var next := t.Registered(registrations[0].0, registrations[0].1);
      assert next.Inverse();
      HistoryKeepsInverse(next, registrations[1..]);
    }
  }

  /**
   After any history of registrations, refused ones and renamings included, a class is found under the
   name it travels by exactly when it was declared.
   */
  lemma FoundExactlyWhenDeclared(registrations: seq<(Class, Option<string>)>, c: Class)
    ensures var t := History(Tables(map[], map[]), registrations);
            t.TypeFor(t.Name(c)) == Some(c) <==> c in t.nameOf
  {
    HistoryKeepsInverse(Tables(map[], map[]), registrations);
  }

  /** A name once given to a class is never another's: what was sent under it still reaches that class. */
  lemma {:induction false} NamesNeverChangeHands(t: Tables, registrations: seq<(Class, Option<string>)>, name: string)
    requires name in t.typeOf
    ensures History(t, registrations).TypeFor(name) == t.TypeFor(name)
    decreases |registrations|
  {
    if registrations != [] {
      NamesNeverChangeHands(t.Registered(registrations[0].0, registrations[0].1), registrations[1..], name);
    }
  }
}
