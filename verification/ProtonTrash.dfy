/** Proton as the trash step reaches it: folder listings and trash calls, which may raise. */
module ProtonTrash {
  import opened Common

  /** One node of a folder listing. */
  datatype Found = Found(uid: string, name: string, isFile: bool)

  /** One call to list a folder: it answered with the children, or raised. */
  datatype Look = Listed(parent: string, children: seq<Found>) | Unlisted(parent: string)

  /** Folder listings, with every look taken so far. */
  class Lister {
    ghost var looks: set<Look>

    constructor ()
      ensures looks == {}
    {
      looks := {};
    }

    method ListChildren(parent: string) returns (r: Result<seq<Found>, string>)
      modifies this
      ensures looks == old(looks) + {if r.Ok? then Listed(parent, r.value) else Unlisted(parent)}
    {
      r := *;
      looks := looks + {if r.Ok? then Listed(parent, r.value) else Unlisted(parent)};
    }
  }

  /** What the CLI was asked to move, call by call, and which of these calls returned. */
  class Trashcan {
    var calls: seq<set<string>>
    var returned: seq<set<string>>

    constructor ()
      ensures calls == [] && returned == []
    {
      calls, returned := [], [];
    }

    /** A call that raises may have moved some of its nodes. */
    method Trash(paths: set<string>) returns (ok: bool)
      modifies this
      ensures calls == old(calls) + [paths]
      ensures returned == if ok then old(returned) + [paths] else old(returned)
    {
      var fails := MayFail();
      ok := !fails;
      calls := calls + [paths];
      if ok {
        returned := returned + [paths];
      }
    }
  }
}
