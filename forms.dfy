/** The multipart `FormData` bodies the client builds, as the ordered list of
    its `append(name, value)` calls. */
module Forms {
  import opened Base

  datatype FormValue =
    | Text(text: string)
    | File(uri: string, name: string, mimeType: string)

  datatype FormField = FormField(name: string, value: FormValue)

  type Form = seq<FormField>

  /** The value appended under `name` first, if any. */
  function ValueOf(form: Form, name: string): (r: Option<FormValue>)
    ensures r.None? <==> forall i :: 0 <= i < |form| ==> form[i].name != name
    ensures r.Some? ==> exists i :: 0 <= i < |form| && form[i] == FormField(name, r.value)
                                  && forall j :: 0 <= j < i ==> form[j].name != name
    decreases |form|
  {
    if form == [] then None
    else if form[0].name == name then Some(form[0].value)
    else
      var r := ValueOf(form[1..], name);
      assert forall i :: 1 <= i < |form| ==> form[i] == form[1..][i - 1];
      if r.Some? then
        var i :| 0 <= i < |form[1..]| && form[1..][i] == FormField(name, r.value)
                 && forall j :: 0 <= j < i ==> form[1..][j].name != name;
        assert form[i + 1] == FormField(name, r.value);
        r
      else r
  }

  /** Looking a name up in two forms sent one after the other. */
  lemma {:induction false} ValueOfConcat(a: Form, b: Form, name: string)
    ensures ValueOf(a + b, name) == if ValueOf(a, name).Some? then ValueOf(a, name) else ValueOf(b, name)
    decreases |a|
  {
    if a != [] {
      assert (a + b)[1..] == a[1..] + b;
      ValueOfConcat(a[1..], b, name);
    } else {
      assert a + b == b;
    }
  }

  function Names(form: Form): (r: seq<string>)
    ensures |r| == |form|
    ensures forall i :: 0 <= i < |form| ==> r[i] == form[i].name
  {
    seq(|form|, i requires 0 <= i < |form| => form[i].name)
  }

  /** The parts of two forms sent one after the other, in order. */
  lemma NamesConcat(a: Form, b: Form)
    ensures Names(a + b) == Names(a) + Names(b)
  {
  }
}
