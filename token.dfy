/** The in-memory token cell the HTTP client reads (lib/token.ts). */
module TokenHolder {
  import opened Wrappers

  class TokenCell {
    var currentToken: Option<string>

    constructor ()
      ensures currentToken == None
    {
      currentToken := None;
    }

    method SetToken(token: Option<string>)
      modifies this
      ensures currentToken == token
    {
      currentToken := token;
    }

    /** Reads the cell and changes nothing. */
    method GetToken() returns (token: Option<string>)
      ensures token == currentToken
    {
      token := currentToken;
    }
  }

  /** `getToken` returns the argument of the most recent `setToken`, and
      `setToken(null)` clears it. */
  method SetThenGet(cell: TokenCell, first: Option<string>, second: Option<string>) returns (seen: Option<string>)
    modifies cell
    ensures seen == second
    ensures cell.currentToken == second
  {
    cell.SetToken(first);
    cell.SetToken(second);
    seen := cell.GetToken();
  }
}
