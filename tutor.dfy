/** A tutor's roster record: five fields copied from one mapping of the payload's "tutors" list. */
module Tutors {
  import opened Values

  /** The record the payroll run pays and documents; every field is the payload value unchanged. */
  datatype Tutor = Tutor(name: Value, id: Value, stripeEmail: Value, school: Value, cut: Value)

  /** The keys construction reads, in the order it reads them. */
  const Keys: seq<string> := ["name", "tutorID", "stripeEmail", "school", "tutorCut"]

  /**
    Builds a tutor from a roster mapping. Each key is looked up in turn, so a mapping that
    lacks some of them raises KeyError for the first one missing in `Keys` order.
  */
  function FromMapping(m: Entry): (r: Result<Tutor>)
    ensures r.Ok? <==> forall k :: k in Keys ==> k in m
    ensures r.Ok? ==> r.value == Tutor(m["name"], m["tutorID"], m["stripeEmail"], m["school"], m["tutorCut"])
    ensures forall i :: 0 <= i < |Keys| && Keys[i] !in m && (forall j :: 0 <= j < i ==> Keys[j] in m) ==>
      r == Err(KeyError(Keys[i]))
  {
    assert Keys[0] == "name" && Keys[1] == "tutorID" && Keys[2] == "stripeEmail" && Keys[3] == "school" && Keys[4] == "tutorCut";
    if "name" !in m then Err(KeyError("name"))
    else if "tutorID" !in m then Err(KeyError("tutorID"))
    else if "stripeEmail" !in m then Err(KeyError("stripeEmail"))
    else if "school" !in m then Err(KeyError("school"))
    else if "tutorCut" !in m then Err(KeyError("tutorCut"))
    else Ok(Tutor(m["name"], m["tutorID"], m["stripeEmail"], m["school"], m["tutorCut"]))
  }

  /** The roster mapping that holds exactly a tutor's five fields. */
  function ToMapping(t: Tutor): (m: Entry)
    ensures m.Keys == set k | k in Keys
  {
    map["name" := t.name, "tutorID" := t.id, "stripeEmail" := t.stripeEmail, "school" := t.school, "tutorCut" := t.cut]
  }

  /** Construction loses nothing: a tutor rebuilt from its own mapping is the same tutor. */
  lemma FromToMapping(t: Tutor)
    ensures FromMapping(ToMapping(t)) == Ok(t)
  {
  }

  /**
    Construction keeps only the five fields and ignores every other key: a built tutor's
    mapping agrees with the source mapping on the keys it holds.
  */
  lemma ToFromMapping(m: Entry)
    requires FromMapping(m).Ok?
    ensures var n := ToMapping(FromMapping(m).value);
      forall k :: k in n ==> k in m && n[k] == m[k]
  {
  }
}
