/** The post-save hooks: permissions for a newly created quality inspector, the
    manufacturing workflow of a newly created READY order, and the status emails sent
    when an existing order is saved. */
module Signals {
  import opened Wrappers
  import Enums
  import ProductionModels
  import ManufacturingWorkflows
  import Ra84672

  // ---------------------------------------------------------------------------------
  // Employee permissions

  /** What the role column of an Employee instance holds when the hook sees it: the
      enum member it was created with, or a plain string. The hook compares it with the
      enum member, and a plain string never equals an enum member. */
  datatype RoleValue = Member(role: Enums.EmployeeRole) | Text(value: string)

  /** A django.contrib.auth User with its direct permissions, as codenames. */
  class AuthUser {
    var permissions: set<string>

    constructor (permissions: set<string>)
      ensures this.permissions == permissions
    {
      this.permissions := permissions;
    }
  }

  /** The employee's user link: unset (null), pointing at a user row that no longer
      exists, or a user. */
  datatype UserLink = Unset | Dangling | Linked(user: AuthUser)

  datatype PermissionOutcome =
    | Finished
    | UserMissingLogged   // User.DoesNotExist was caught and logged
    | AttributeErrorRaised  // permissions added to a null user; the error propagates

  const QualityCheckPermissions: set<string> :=
    {"change_qualitycheck", "view_qualitycheck", "add_qualitycheck", "delete_qualitycheck"}

  /** The permissions a created employee's user gets: the four quality-check permissions
      for the quality-inspector enum member, none for any other role. */
  function PermissionsToGrant(role: RoleValue): (r: set<string>)
    ensures role == Member(Enums.QualityInspector) ==> r == QualityCheckPermissions
    ensures role != Member(Enums.QualityInspector) ==> r == {}
  {
    if role == Member(Enums.QualityInspector) then QualityCheckPermissions else {}
  }

  /** The four codenames are four different permissions. */
  lemma QualityCheckPermissionsCount()
    ensures |QualityCheckPermissions| == 4
  {
    var s := QualityCheckPermissions;
    assert s == {"change_qualitycheck"} + {"view_qualitycheck"} + {"add_qualitycheck"} + {"delete_qualitycheck"};
  }

  /** A role stored as the string "Quality Inspector" is not the enum member, so it is
      granted nothing. */
  lemma TextRoleGetsNothing(s: string)
    ensures PermissionsToGrant(Text(s)) == {}
  {
  }

  /** user_set_permissions. Only creations are handled. Reading the user link of a
      dangling user raises User.DoesNotExist, which is logged; granting to a null user
      raises AttributeError, which is not caught; otherwise the user gains exactly the
      role's permissions and keeps the ones it had. */
  method UserSetPermissions(created: bool, role: RoleValue, link: UserLink) returns (outcome: PermissionOutcome)
    modifies if link.Linked? then {link.user} else {}
    ensures !created ==> outcome == Finished
    ensures created && link.Dangling? ==> outcome == UserMissingLogged
    ensures created && link.Unset? ==>
      outcome == (if PermissionsToGrant(role) == {} then Finished else AttributeErrorRaised)
    ensures link.Linked? ==> outcome == Finished
    ensures link.Linked? ==>
      link.user.permissions == old(link.user.permissions) + (if created then PermissionsToGrant(role) else {})
  {
    if !created {
      return Finished;
    }
    if link.Dangling? {
      return UserMissingLogged;
    }
    if role == Member(Enums.QualityInspector) {
      if link.Unset? {
        return AttributeErrorRaised;
      }
      var user := link.user;
      user.permissions := user.permissions
        + {"change_qualitycheck"} + {"view_qualitycheck"} + {"add_qualitycheck"} + {"delete_qualitycheck"};
    }
    return Finished;
  }

  // ---------------------------------------------------------------------------------
  // Status emails

  /** An email handed to the mail task: subject, body and recipients. */
  datatype Email = Email(subject: string, body: string, recipients: seq<string>)

  const StatusRecipients: seq<string> := ["example@example.com"]

  function CompletedEmail(orderNumber: string): Email {
    Email("Manufacturing Order Completed",
          "Order " + orderNumber + " has been completed successfully.",
          StatusRecipients)
  }

  function CanceledEmail(orderNumber: string): Email {
    Email("Manufacturing Order Canceled",
          "Order " + orderNumber + " has been canceled.",
          StatusRecipients)
  }

  /** The email decision of send_email_when_manufacturing_order_is_completed_or_canceled
      as written: the cancel branch compares with "CANCELED". */
  function StatusEmailAsWritten(created: bool, status: string, orderNumber: string): (r: Option<Email>)
    ensures r.Some? ==> !created
  {
    if created then None
    else if status == "COMPLETED" then Some(CompletedEmail(orderNumber))
    else if status == "CANCELED" then Some(CanceledEmail(orderNumber))
    else None
  }

  /** The same decision with the cancel branch matching the status code "CANCELLED". */
  function StatusEmail(created: bool, status: string, orderNumber: string): (r: Option<Email>)
    ensures r.Some? ==> !created
  {
    if created then None
    else if status == ProductionModels.MoStatus.Completed.Code() then Some(CompletedEmail(orderNumber))
    else if status == ProductionModels.MoStatus.Cancelled.Code() then Some(CanceledEmail(orderNumber))
    else None
  }

  /** As written, of all order statuses only COMPLETED ever gets an email: a cancelled
      order is saved with "CANCELLED" and the branch waiting for "CANCELED" never fires. */
  lemma AsWrittenCancelledSendsNothing(st: ProductionModels.MoStatus, orderNumber: string)
    ensures StatusEmailAsWritten(false, st.Code(), orderNumber).Some? <==> st == ProductionModels.MoStatus.Completed
    ensures StatusEmailAsWritten(false, ProductionModels.MoStatus.Cancelled.Code(), orderNumber) == None
    ensures StatusEmail(false, ProductionModels.MoStatus.Cancelled.Code(), orderNumber) == Some(CanceledEmail(orderNumber))
  {
    ProductionModels.CanceledIsNotAStatus(st);
  }

  /** The corrected decision: with the cancel branch matching the status code, an update
      of an order sends one email exactly when it is COMPLETED or CANCELLED, each with its
      own subject and the order number in its body; creations never send one. */
  lemma StatusEmailCases(created: bool, st: ProductionModels.MoStatus, orderNumber: string)
    ensures StatusEmail(created, st.Code(), orderNumber).Some?
        <==> !created && (st == ProductionModels.MoStatus.Completed || st == ProductionModels.MoStatus.Cancelled)
    ensures !created && st == ProductionModels.MoStatus.Completed ==>
      && StatusEmail(created, st.Code(), orderNumber) == Some(CompletedEmail(orderNumber))
      && StatusEmail(created, st.Code(), orderNumber).value.subject == "Manufacturing Order Completed"
    ensures !created && st == ProductionModels.MoStatus.Cancelled ==>
      && StatusEmail(created, st.Code(), orderNumber) == Some(CanceledEmail(orderNumber))
      && StatusEmail(created, st.Code(), orderNumber).value.subject == "Manufacturing Order Canceled"
      && StatusEmail(created, st.Code(), orderNumber).value.body == "Order " + orderNumber + " has been canceled."
  {
    ProductionModels.StatusCodesDistinct(st, ProductionModels.MoStatus.Completed);
    ProductionModels.StatusCodesDistinct(st, ProductionModels.MoStatus.Cancelled);
  }

  /** The Celery queue the mail task is put on. */
  class MailQueue {
    var queued: seq<Email>

    constructor ()
      ensures queued == []
    {
      queued := [];
    }
  }

  /** send_order_status_email: queues the email; a failure to queue it (the broker being
      unreachable, say) is logged and swallowed, so the caller goes on either way. */
  method SendOrderStatusEmail(queue: MailQueue, email: Email, enqueueFails: bool)
    modifies queue
    ensures queue.queued == old(queue.queued) + (if enqueueFails then [] else [email])
  {
    if !enqueueFails {
      queue.queued := queue.queued + [email];
    }
  }

  /** What the queue gains from a decision. */
  function Queued(email: Option<Email>, enqueueFails: bool): seq<Email> {
    if email.Some? && !enqueueFails then [email.value] else []
  }

  /** send_email_when_manufacturing_order_is_completed_or_canceled as written: its cancel
      branch waits for "CANCELED", so an order saved as "CANCELLED" is only logged. */
  method SendEmailWhenCompletedOrCancelled(order: ProductionModels.ManufacturingOrder, created: bool,
                                           queue: MailQueue, enqueueFails: bool)
    modifies queue
    ensures queue.queued == old(queue.queued) + Queued(StatusEmailAsWritten(created, order.status, order.orderNumber), enqueueFails)
  {
    if !created {
      if order.status == "COMPLETED" {
        SendOrderStatusEmail(queue, CompletedEmail(order.orderNumber), enqueueFails);
      } else if order.status == "CANCELED" {
        SendOrderStatusEmail(queue, CanceledEmail(order.orderNumber), enqueueFails);
      }
    }
  }

  // ---------------------------------------------------------------------------------
  // Manufacturing workflows

  /** The workflow create_manufacturing_order_workflow runs: the registered one of the
      order's SKU, and only for a newly created READY order. */
  function WorkflowToRun(created: bool, status: string, sku: string): (r: Option<ManufacturingWorkflows.Workflow>)
    ensures r.Some? <==> created && status == ProductionModels.MoStatus.Ready.Code() && sku == "RA-84672"
  {
    if created && status == "READY" then ManufacturingWorkflows.Lookup(sku) else None
  }

  /** A save of a ManufacturingOrder: the workflow hook, then the status-email hook, in
      the order they are registered. The registered workflow ends by saving the order
      again as an update, which runs both hooks once more with created = False. */
  method OrderSaved(order: ProductionModels.ManufacturingOrder, created: bool,
                    stations: seq<Ra84672.Workstation>, table: Ra84672.StepTable,
                    queue: MailQueue, enqueueFails: bool)
    modifies order`status, table, queue
    decreases if created then 1 else 0
    ensures WorkflowToRun(created, old(order.status), order.productSku).Some? ==>
      && table.steps == old(table.steps) + Ra84672.PlannedSteps(order.id, stations)
      && order.status == ProductionModels.MoStatus.Planned.Code()
    ensures WorkflowToRun(created, old(order.status), order.productSku).None? ==>
      table.steps == old(table.steps) && order.status == old(order.status)
    ensures created ==> queue.queued == old(queue.queued)
    ensures !created ==>
      queue.queued == old(queue.queued) + Queued(StatusEmailAsWritten(false, order.status, order.orderNumber), enqueueFails)
  {
    if created && order.status == "READY" {
      var workflow := ManufacturingWorkflows.Lookup(order.productSku);
      if workflow.Some? {
        ManufacturingWorkflows.Apply(workflow.value, order, stations, table);
        // instance.save() at the end of the workflow
        OrderSaved(order, false, stations, table, queue, enqueueFails);
      }
    }
    SendEmailWhenCompletedOrCancelled(order, created, queue, enqueueFails);
  }

  /** The save made by the workflow is an update of a PLANNED order: it starts no
      workflow, so the hook does not recurse, and it sends no email. */
  lemma WorkflowSaveIsInert(sku: string, orderNumber: string)
    ensures WorkflowToRun(false, ProductionModels.MoStatus.Planned.Code(), sku).None?
    ensures StatusEmail(false, ProductionModels.MoStatus.Planned.Code(), orderNumber).None?
    ensures StatusEmailAsWritten(false, ProductionModels.MoStatus.Planned.Code(), orderNumber).None?
  {
  }
}
