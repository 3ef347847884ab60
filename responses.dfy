/**
 * What a view hands back to the web server, and the superuser gate that
 * every admin view starts with.
 */
module Responses {
  import opened Wrappers
  import opened PyJson

  datatype Response =
    | Redirect(view: string)                           // redirect('name', ...)
    | Page(template: string)                           // render(request, template, ...)
    | JsonResponse(status: int, body: map<string, Json>)
    | NotFound                                         // Http404 from get_object_or_404
    | ServerError(exception: string)                   // an uncaught exception

  /**
   * `if not request.user.is_superuser: return redirect('home')`: the
   * response that cuts the view short, or None when the view may go on.
   */
  function AdminGate(isSuperuser: bool): (r: Option<Response>)
    ensures r.None? <==> isSuperuser
    ensures r.Some? ==> r.value == Redirect("home")
  {
    if isSuperuser then None else Some(Redirect("home"))
  }

  /** `JsonResponse({'error': message}, status=400)` */
  function ErrorResponse(message: string): (r: Response)
    ensures r.JsonResponse? && r.status == 400 && r.body == map["error" := Str(message)]
  {
    JsonResponse(400, map["error" := Str(message)])
  }
}
