/**
 * The envelope of every HTTP response: a code, a message and, for a
 * success, the data. Error codes are numbered from 10001.
 */
module Envelope {
  import opened Wrappers

  const BadRequest: int := 10001
  const InternalServer: int := 10002

  /** errcode.String: the text of an error code; codes it does not know read "位置错误". */
  function ErrorText(code: int): (r: string)
    ensures code == BadRequest ==> r == "请求内容有误"
    ensures code == InternalServer ==> r == "服务处理错误"
    ensures code != BadRequest && code != InternalServer ==> r == "位置错误"
  {
    if code == BadRequest then "请求内容有误"
    else if code == InternalServer then "服务处理错误"
    else "位置错误"
  }

  /** The three texts differ, so the text of a known code names that code. */
  lemma ErrorTextNamesCode(a: int, b: int)
    requires a == BadRequest || a == InternalServer
    requires ErrorText(a) == ErrorText(b)
    ensures a == b
  {
    var x, y, z := "请求内容有误", "服务处理错误", "位置错误";
    assert x[0] != y[0] && x[0] != z[0];
    assert y[0] != z[0];
  }

  /** commonResponse; data absent stands for the omitted field. */
  datatype Response<D> = Response(code: int, message: string, data: Option<D>)

  /** success: code 0, message "success", and the data. */
  function Success<D>(data: D): (r: Response<D>)
    ensures r.code == 0 && r.message == "success" && r.data == Some(data)
  {
    Response(0, "success", Some(data))
  }

  /** fail: the code and the message, without data. */
  function Fail<D>(code: int, message: string): (r: Response<D>)
    ensures r.code == code && r.message == message && r.data.None?
  {
    Response(code, message, None)
  }

  /** A failure with an error code is never mistaken for a success, and the code tells which it is. */
  lemma FailIsNotSuccess<D>(code: int, message: string, data: D)
    requires code == BadRequest || code == InternalServer
    ensures Fail<D>(code, message) != Success(data)
    ensures Fail<D>(code, message).code != Success(data).code
  {
  }
}
