/**
 * The personal category list hook (src/hooks/useCategories.ts): the
 * `categories` and `loading` state and how each database call's reply
 * changes them. The reply of each call is a parameter; each method returns
 * the request it sends.
 */
module UseCategories {
  import opened Wrappers
  import opened Lists
  import opened Rows

  /** The requests the hook sends to the `categories` table. */
  datatype CategoryRequest =
    | InsertCategory(payload: CategoryPayload, createdBy: Id)
    | UpdateCategoryRow(id: Id, updates: CategoryPayload)
    | DeleteCategoryRow(id: Id)

  const NotAuthenticated: string := "User not authenticated"

  /** A created category goes at the end; deleting it again gives back the
      list it was created in, when its id was new. */
  lemma DeleteUndoesCreate(categories: seq<Category>, created: Category)
    requires forall c :: c in categories ==> c.id != created.id
    ensures RemoveMatching(categories + [created], CategoryId, created.id) == categories
  {
    AppendThenRemove(categories, CategoryId, created);
  }

  /** Deleting a category after updating it is the same as deleting it. */
  lemma DeleteAfterUpdate(categories: seq<Category>, id: Id, updated: Category)
    requires updated.id == id
    ensures RemoveMatching(ReplaceMatching(categories, CategoryId, id, updated), CategoryId, id)
         == RemoveMatching(categories, CategoryId, id)
  {
    ReplaceThenRemove(categories, CategoryId, id, updated);
  }

  class CategoriesHook {
    var categories: seq<Category>
    var loading: bool
    const user: Option<User>

    constructor (user: Option<User>)
      ensures categories == [] && loading && this.user == user
    {
      categories := [];
      loading := true;
      this.user := user;
    }

    /** `fetchCategories`: without a user nothing happens; otherwise the list
        becomes the reply's rows (or empty), unless the reply is an error. */
    method FetchCategories(reply: Reply<seq<Category>>)
      modifies this
      ensures user.None? ==> categories == old(categories) && loading == old(loading)
      ensures user.Some? ==> !loading
      ensures user.Some? && reply.error.Some? ==> categories == old(categories)
      ensures user.Some? && reply.error.None? ==> categories == reply.data.GetOr([])
    {
      if user.None? {
        return;
      }
      loading := true;
      if reply.error.None? {
        categories := reply.data.GetOr([]);
      }
      loading := false;
    }

    /** `createCategory(category)`: a successful insert appends the returned row. */
    method CreateCategory(category: CategoryPayload, reply: Reply<Category>)
      returns (request: Option<CategoryRequest>, data: Option<Category>, error: Option<string>)
      modifies this
      ensures user.None? ==> request.None? && data.None? && error == Some(NotAuthenticated)
      ensures user.Some? ==> request == Some(InsertCategory(category, user.value.id)) && data == reply.data && error == reply.error
      ensures user.Some? && reply.error.None? && reply.data.Some? ==> categories == old(categories) + [reply.data.value]
      ensures user.None? || reply.error.Some? || reply.data.None? ==> categories == old(categories)
      ensures loading == old(loading)
    {
      if user.None? {
        return None, None, Some(NotAuthenticated);
      }
      request := Some(InsertCategory(category, user.value.id));
      if reply.error.None? && reply.data.Some? {
        categories := categories + [reply.data.value];
      }
      data, error := reply.data, reply.error;
    }

    /** `updateCategory(id, updates)`: a successful update replaces every
        category with that id by the returned row. */
    method UpdateCategory(id: Id, updates: CategoryPayload, reply: Reply<Category>)
      returns (request: CategoryRequest, data: Option<Category>, error: Option<string>)
      modifies this
      ensures request == UpdateCategoryRow(id, updates) && data == reply.data && error == reply.error
      ensures reply.error.None? && reply.data.Some? ==>
        categories == ReplaceMatching(old(categories), CategoryId, id, reply.data.value)
      ensures reply.error.Some? || reply.data.None? ==> categories == old(categories)
      ensures loading == old(loading)
    {
      request := UpdateCategoryRow(id, updates);
      if reply.error.None? && reply.data.Some? {
        categories := ReplaceMatching(categories, CategoryId, id, reply.data.value);
      }
      data, error := reply.data, reply.error;
    }

    /** `deleteCategory(id)`: a successful delete drops every category with that id. */
    method DeleteCategory(id: Id, deleteError: Option<string>)
      returns (request: CategoryRequest, error: Option<string>)
      modifies this
      ensures request == DeleteCategoryRow(id) && error == deleteError
      ensures deleteError.None? ==> categories == RemoveMatching(old(categories), CategoryId, id)
      ensures deleteError.Some? ==> categories == old(categories)
      ensures loading == old(loading)
    {
      request := DeleteCategoryRow(id);
      if deleteError.None? {
        categories := RemoveMatching(categories, CategoryId, id);
      }
      error := deleteError;
    }
  }
}
