/** The SDK's error vocabulary (Sources/VoiceSDK/Public/CallError.swift). */
module Errors {

  datatype CallError =
    | InvalidResponse(message: string)
    | InvalidState(message: string)
    | Unauthorized(message: string)
    | InvalidURL(message: string)
    | SipError(message: string)
    | Unknown(message: string, code: int)

  /** Anything a Swift `catch` can receive: one of the SDK's own errors, or an error thrown by
      platform code (the URL loading system, for one), known only by its localized description. */
  datatype AnyError =
    | SdkError(error: CallError)
    | PlatformError(description: string)
}
