/**
 * The category store: the `categories` list and its CRUD operations.
 */
module Categories {
  import opened Js
  import opened Http
  import opened RecordCache

  class CategoryStore {
    var categories: seq<Record>

    constructor ()
      ensures categories == []
    {
      categories := [];
    }

    /** `getAllCategories`: on success the list becomes the server's. */
    method GetAllCategories(response: Response<seq<Record>>) returns (r: Result<seq<Record>>)
      modifies this
      ensures response.Ok? ==> r == Success(response.payload) && categories == response.payload
      ensures response.Err? ==> r == Failure(DefaultMessage(Operation.LoadCategories)) && categories == old(categories)
    {
      if response.Ok? {
        categories := response.payload;
        r := Success(response.payload);
      } else {
        r := Failure(DefaultMessage(Operation.LoadCategories));
      }
    }

    /** `getCategoryById`: returns the server's record and leaves the list
        alone (the method may not modify the store at all). */
    method GetCategoryById(id: Id, response: Response<Record>) returns (r: Result<Record>)
      ensures response.Ok? ==> r == Success(response.payload)
      ensures response.Err? ==> r == Failure(DefaultMessage(Operation.LoadCategory))
    {
      if response.Ok? {
        r := Success(response.payload);
      } else {
        r := Failure(DefaultMessage(Operation.LoadCategory));
      }
    }

    /** `createCategory`: the created record is pushed at the end. */
    method CreateCategory(response: Response<Record>) returns (r: Result<Record>)
      modifies this
      ensures response.Ok? ==> r == Success(response.payload) &&
                               categories == old(categories) + [response.payload]
      ensures response.Err? ==> r == Failure(ErrorFor(response.message, Operation.CreateCategory)) &&
                                categories == old(categories)
    {
      if response.Ok? {
        categories := categories + [response.payload];
        r := Success(response.payload);
      } else {
        r := Failure(ErrorFor(response.message, Operation.CreateCategory));
      }
    }

    /** `updateCategory(id)`: the first record with that id is replaced by
        the server's; no match, no change. */
    method UpdateCategory(id: Id, response: Response<Record>) returns (r: Result<Record>)
      modifies this
      ensures response.Ok? ==> r == Success(response.payload) &&
                               categories == ReplaceFirst(old(categories), id, response.payload)
      ensures response.Err? ==> r == Failure(ErrorFor(response.message, Operation.UpdateCategory)) &&
                                categories == old(categories)
    {
      if response.Ok? {
        var index := FindIndex(categories, id);
        if index != -1 {
          categories := categories[index := response.payload];
        }
        r := Success(response.payload);
      } else {
        r := Failure(ErrorFor(response.message, Operation.UpdateCategory));
      }
    }

    /** `deleteCategory(id)`: every record with that id is filtered out. */
    method DeleteCategory(id: Id, response: Response<()>) returns (r: Result<()>)
      modifies this
      ensures response.Ok? ==> r == Success(()) && categories == RemoveById(old(categories), id)
      ensures response.Err? ==> r == Failure(ErrorFor(response.message, Operation.DeleteCategory)) &&
                                categories == old(categories)
    {
      if response.Ok? {
        categories := RemoveById(categories, id);
        r := Success(());
      } else {
        r := Failure(ErrorFor(response.message, Operation.DeleteCategory));
      }
    }
  }
}
