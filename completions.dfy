/** How an awaited call or an expression of index.js ends: with a value, or by
    throwing (for an `async` call, a rejected promise). */
module Completions {

  datatype Completion<+T> = Normal(value: T) | Throw(message: string)

}
