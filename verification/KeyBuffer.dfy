// The commit order of a run: a growing buffer of identities, compacted in place
// over the storage it already holds.
module KeyBuffer {
  import opened Core

  function Without(s: seq<string>, dropped: set<string>): seq<string> {
    if s == [] then []
    else Without(s[..|s| - 1], dropped) + if s[|s| - 1] in dropped then [] else [s[|s| - 1]]
  }

  lemma {:induction false} WithoutFiltered(s: seq<string>, dropped: set<string>)
    ensures Without(s, dropped) == Filter(s, k => k !in dropped)
  {
    if s != [] { WithoutFiltered(s[..|s| - 1], dropped); }
  }

  class KeyBuffer {
    var data: array<string>
    var length: nat

    ghost predicate Valid()
      reads this, data
    {
      length <= data.Length
    }

    function Contents(): (s: seq<string>)
      requires Valid()
      reads this, data
      ensures |s| == length
    {
      data[..length]
    }

    constructor ()
      ensures Valid() && Contents() == [] && fresh(data)
    {
      data := new string[0];
      length := 0;
    }

    method Append(key: string)
      requires Valid()
      modifies this, data
      ensures Valid() && (data == old(data) || fresh(data))
      ensures Contents() == old(Contents()) + [key]
    {
      if length == data.Length {
        var wider := new string[2 * length + 1](_ => "");
        forall i | 0 <= i < length {
          wider[i] := data[i];
        }
        data := wider;
      }
      data[length] := key;
      length := length + 1;
    }

    /** compactFactOrderLocked: the named identities leave the order, which is rewritten over
        its own storage. */
    method Compact(dropped: set<string>)
      requires Valid()
      modifies this`length, data
      ensures Valid() && data == old(data)
      ensures Contents() == Filter(old(Contents()), k => k !in dropped)
    {
      ghost var was := Contents();
      if dropped == {} {
        KeepsAll(was, dropped);
        return;
      }
      hide Filter;
      var kept := 0;
      for i := 0 to length
        invariant kept <= i <= length == |was| <= data.Length
        invariant data[..kept] == Without(was[..i], dropped)
        invariant forall j :: i <= j < length ==> data[j] == was[j]
      {
        assert was[..i + 1][..i] == was[..i];
        if data[i] !in dropped {
          data[kept] := data[i];
          kept := kept + 1;
        }
      }
      assert was[..length] == was;
      length := kept;
      WithoutFiltered(was, dropped);
    }

    lemma {:induction false} KeepsAll(s: seq<string>, dropped: set<string>)
      requires dropped == {}
      ensures Filter(s, k => k !in dropped) == s
    {
      if s != [] { KeepsAll(s[..|s| - 1], dropped); }
    }
  }
}
