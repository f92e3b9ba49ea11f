/** What a page handler does to the outside world, recorded in order. */
module Effects {
  import opened Api
  import opened Toasts

  datatype Effect =
    | Call(request: Request)             // an API request is issued
    | Notify(message: string, kind: ToastType)  // `showToast(message, kind)`
    | Navigate(route: string)            // `router.push(route)`
}
