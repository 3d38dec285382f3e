/** POST /api/workflows/favorite: mark or unmark a workflow as one of the
    caller's favourites, as rows of the `favourite` table. */
module FavoriteRoute {
  import opened Common

  /** A `favourite` row. */
  datatype FavouriteRow = FavouriteRow(user_id: UserId, workflow_id: string)

  datatype FavouriteBody =
    | PlainText(text: string)
    | FavouriteError(error: string)
    | Succeeded

  /** The row belongs to `user` and names `workflowId`. */
  predicate Matches(row: FavouriteRow, user: UserId, workflowId: string) {
    row.user_id == user && row.workflow_id == workflowId
  }

  /** The rows a delete of (`user`, `workflowId`) leaves in place. */
  function Unmatched(user: UserId, workflowId: string): FavouriteRow -> bool {
    row => !Matches(row, user, workflowId)
  }

  /** The table after `delete().eq('user_id', user).eq('workflow_id', workflowId)`:
      every matching row is gone, every other row stays, in its order. */
  function Unfavourited(rows: seq<FavouriteRow>, user: UserId, workflowId: string): (r: seq<FavouriteRow>)
    ensures IsSubsequence(r, rows)
    ensures forall row :: row in r <==> row in rows && !Matches(row, user, workflowId)
    ensures FavouriteRow(user, workflowId) !in r
    ensures forall row :: multiset(r)[row] == if Matches(row, user, workflowId) then 0 else multiset(rows)[row]
  {
    FilterIsSubsequence(rows, Unmatched(user, workflowId));
    FilterMultiset(rows, Unmatched(user, workflowId));
    Filter(rows, Unmatched(user, workflowId))
  }

  /** Favouriting and then unfavouriting the same workflow leaves the table as if
      the caller had only unfavourited it. */
  lemma FavouriteThenUnfavourite(rows: seq<FavouriteRow>, user: UserId, workflowId: string)
    ensures Unfavourited(rows + [FavouriteRow(user, workflowId)], user, workflowId) == Unfavourited(rows, user, workflowId)
  {
    FilterAppend(rows, [FavouriteRow(user, workflowId)], Unmatched(user, workflowId));
    assert Unfavourited([FavouriteRow(user, workflowId)], user, workflowId) == [];
  }

  /** The `favourite` table. */
  class FavouriteTable {
    var rows: seq<FavouriteRow>

    constructor ()
      ensures rows == []
    {
      rows := [];
    }

    /** The handler. `dbError` is the message of the database error the insert or
        delete would report, if any; on an error the table is left as it was. */
    method Post(session: Option<UserId>, workflowId: string, isFavorite: Json, dbError: Option<string>)
      returns (r: Response<FavouriteBody>)
      modifies this
      ensures session.None? ==> r == Response(401, PlainText("Unauthorized")) && rows == old(rows)
      ensures session.Some? && dbError.Some? ==> r == Response(500, FavouriteError(dbError.value)) && rows == old(rows)
      ensures session.Some? && dbError.None? ==> r == Response(200, Succeeded)
      ensures session.Some? && dbError.None? && Truthy(isFavorite) ==>
        rows == old(rows) + [FavouriteRow(session.value, workflowId)]
      ensures session.Some? && dbError.None? && !Truthy(isFavorite) ==>
        rows == Unfavourited(old(rows), session.value, workflowId)
    {
      if session.None? {
        return Response(401, PlainText("Unauthorized"));
      }
      if dbError.Some? {
        return Response(500, FavouriteError(dbError.value));
      }
      if Truthy(isFavorite) {
        rows := rows + [FavouriteRow(session.value, workflowId)];
      } else {
        rows := Unfavourited(rows, session.value, workflowId);
      }
      r := Response(200, Succeeded);
    }
  }
}
