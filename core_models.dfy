/** Shared shapes of the console's REST responses and the cursors read from their links. */
module CoreModels {
  import opened Wrappers
  import opened Strings

  /** A pagination link of a list response (`LinkInterface`): its relation and its URL. */
  datatype Link = Link(rel: string, href: string)

  /** `href.split(key)[1]`: the text after the first `key`, up to any second one; `None` for `undefined`. */
  function CursorOf(href: string, key: string): Option<string>
    requires |key| > 0
  {
    At(Split(href, key), 1)
  }

  /**
   * The cursor set by the links with relation `rel`, the last one winning; `None` when no link
   * has that relation. The query key is the relation followed by "=".
   */
  function LastCursor(links: seq<Link>, rel: string): Option<Option<string>>
  {
    if links == [] then None
    else
      var link := links[|links| - 1];
      if link.rel == rel then Some(CursorOf(link.href, rel + "=")) else LastCursor(links[..|links| - 1], rel)
  }

  /** A page is available exactly when some link carries its relation. */
  lemma {:induction false} LastCursorFound(links: seq<Link>, rel: string)
    ensures LastCursor(links, rel).Some? <==> exists i :: 0 <= i < |links| && links[i].rel == rel
  {
    if links != [] {
      var p := links[..|links| - 1];
      LastCursorFound(p, rel);
      if exists i :: 0 <= i < |p| && p[i].rel == rel {
        var i :| 0 <= i < |p| && p[i].rel == rel;
        assert links[i] == p[i];
      }
      if exists i :: 0 <= i < |links| && links[i].rel == rel {
        var i :| 0 <= i < |links| && links[i].rel == rel;
        if i < |p| {
          assert p[i] == links[i];
        }
      }
    }
  }

  /** With several links of one relation, the last of them sets the cursor. */
  lemma {:induction false} LastLinkWins(links: seq<Link>, rel: string, i: nat)
    requires i < |links| && links[i].rel == rel
    requires forall j :: i < j < |links| ==> links[j].rel != rel
    ensures LastCursor(links, rel) == Some(CursorOf(links[i].href, rel + "="))
  {
    if i < |links| - 1 {
      var p := links[..|links| - 1];
      assert p[i] == links[i];
      LastLinkWins(p, rel, i);
    }
  }
}
