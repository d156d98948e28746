/** The exceptions the grid, the resource views and the add/edit/delete
    controller can raise. A member that models a raising operation returns
    one of these instead of a value. */
module PyErrors {

  datatype PyError =
    // django.core.exceptions.ImproperlyConfigured, with its message
    | ImproperlyConfigured(message: string)
    // dict lookup of a missing key
    | KeyError(key: string)
    // int() of a text that is not a decimal integer; list.remove of an absent item
    | ValueError
    // reduce() of an empty sequence with no initial value
    | TypeError
    // indexing past the end of a list
    | IndexError
    // integer division by zero
    | ZeroDivisionError
    // Django's QuerySet slicing refuses negative bounds with an assertion
    | AssertionError(message: string)
    // Model._meta.get_field of a name the model does not have
    | FieldDoesNotExist(name: string)
    // get_object_or_404 found no record
    | Http404
}
