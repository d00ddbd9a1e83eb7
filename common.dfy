/** JavaScript's `null` / `undefined`, for values that may be missing. */
module Optional {
  datatype Option<+T> = None | Some(value: T)
}

/** The toast notifications the pages show through `useToast`. */
module Feedback {
  /** `destructive` is the `variant: "destructive"` styling used for errors. */
  datatype Toast = Toast(title: string, description: string, destructive: bool)
}
