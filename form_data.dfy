/**
 * The browser `FormData` a customer form submits: an ordered list of named entries, each a
 * text value or a chosen file. `get` answers the first entry of a name.
 */
module FormDataModel {
  import opened Common

  datatype FormValue = Text(s: string) | Upload(fileName: string)

  datatype Entry = Entry(name: string, value: FormValue)

  type FormData = seq<Entry>

  /** `formData.get(name)`: the value of the first entry with that name, or null. */
  function Get(fd: FormData, name: string): (r: Option<FormValue>)
    ensures r.None? <==> forall i :: 0 <= i < |fd| ==> fd[i].name != name
    ensures r.Some? ==> exists i :: 0 <= i < |fd| && fd[i] == Entry(name, r.value)
                                    && forall j :: 0 <= j < i ==> fd[j].name != name
    decreases |fd|
  {
    if fd == [] then None
    else if fd[0].name == name then
      assert fd[0] == Entry(name, fd[0].value);
      Some(fd[0].value)
    else
      var rest := Get(fd[1..], name);
      assert forall i :: 1 <= i < |fd| ==> fd[i] == fd[1..][i - 1];
      rest
  }

  /** `formData.getAll(name)`: the values of every entry with that name, in order. */
  function GetAll(fd: FormData, name: string): (r: seq<FormValue>)
    ensures |r| <= |fd|
    ensures r == [] <==> Get(fd, name).None?
    ensures r != [] ==> r[0] == Get(fd, name).value
    decreases |fd|
  {
    if fd == [] then []
    else
      var rest := GetAll(fd[1..], name);
      assert forall i :: 1 <= i < |fd| ==> fd[i] == fd[1..][i - 1];
      if fd[0].name == name then [fd[0].value] + rest else rest
  }

  /** Appending an entry never changes what `get` already answers for a name. */
  lemma {:induction false} GetAfterAppend(fd: FormData, e: Entry, name: string)
    ensures Get(fd + [e], name) == if Get(fd, name).Some? then Get(fd, name)
                                   else if e.name == name then Some(e.value) else None
    decreases |fd|
  {
    if fd != [] {
      assert (fd + [e])[1..] == fd[1..] + [e];
      if fd[0].name != name {
        GetAfterAppend(fd[1..], e, name);
      }
    }
  }

  /** Appending an entry adds its value at the end of `getAll` for its name and changes no other name. */
  lemma {:induction false} GetAllAfterAppend(fd: FormData, e: Entry, name: string)
    ensures GetAll(fd + [e], name) == if e.name == name then GetAll(fd, name) + [e.value] else GetAll(fd, name)
    decreases |fd|
  {
    if fd != [] {
      assert (fd + [e])[1..] == fd[1..] + [e];
      GetAllAfterAppend(fd[1..], e, name);
    }
  }

  /** `get` on two lists of entries: the first list answers if it can. */
  lemma {:induction false} GetConcat(a: FormData, b: FormData, name: string)
    ensures Get(a + b, name) == if Get(a, name).Some? then Get(a, name) else Get(b, name)
    decreases |a|
  {
    if a == [] {
      assert a + b == b;
    } else {
      assert (a + b)[1..] == a[1..] + b;
      if a[0].name != name {
        GetConcat(a[1..], b, name);
      }
    }
  }

  /** `getAll` on two lists of entries: the answers of the first, then those of the second. */
  lemma {:induction false} GetAllConcat(a: FormData, b: FormData, name: string)
    ensures GetAll(a + b, name) == GetAll(a, name) + GetAll(b, name)
    decreases |a|
  {
    if a == [] {
      assert a + b == b;
    } else {
      assert (a + b)[1..] == a[1..] + b;
      GetAllConcat(a[1..], b, name);
    }
  }

  /** The entry at `k` answers `get` when no earlier entry has its name. */
  lemma GetAtFirst(fd: FormData, k: int, name: string)
    requires 0 <= k < |fd| && fd[k].name == name
    requires forall j :: 0 <= j < k ==> fd[j].name != name
    ensures Get(fd, name) == Some(fd[k].value)
  {
    var r := Get(fd, name);
    var i :| 0 <= i < |fd| && fd[i] == Entry(name, r.value) && forall j :: 0 <= j < i ==> fd[j].name != name;
    assert i == k;
  }
}
