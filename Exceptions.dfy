/** The Java exceptions the client raises or lets through, as values. */
module Exceptions {

  /**
   * A thrown `java.lang.Throwable`. `JavaError` stands for a `java.lang.Error`
   * (such as a `StackOverflowError`), which a `catch (Exception e)` block does not
   * catch; every other alternative is an `Exception`.
   */
  datatype Throwable =
    | OllamaBaseException(message: string)
    | ToolInvocationException(message: string, cause: Throwable)
    | ToolNotFoundException(message: string)
    | IllegalStateException(message: string)
    | RuntimeException(message: string, cause: Throwable)
    | JsonProcessingException(message: string)
    | NullPointerException
    | HandlerException(className: string, message: string)
    | JavaError(className: string, message: string)
  {
    /** True for the throwables a `catch (Exception e)` clause intercepts. */
    predicate IsException() {
      !JavaError?
    }
  }
}
